/** The protocol of CheckpointProtocol with every call run from start to end - or to the
    death of its process - before the next one begins, on whichever host. */
module CheckpointRuns {
  import opened Options
  import opened P = CheckpointProtocol

  /** `answered`: the head request before the decision gets an answer. */
  datatype Call =
    | Edit(h: HostId, e: Edit)
    | Sync(h: HostId, answered: bool, gap: nat, ok: bool)       // a checkpoint, or a pause with upload
    | DiesUploading(h: HostId, answered: bool, gap: nat)        // after the upload, before the record
    | Restore(h: HostId, answered: bool, outcome: Outcome)      // a resume
    | DiesRestoring(h: HostId, answered: bool, outcome: Outcome)
    | Discover(h: HostId)
    | Forgets(h: HostId)
    | LosesDisk(h: HostId)

  function StepsOf(call: Call): seq<Step> {
    match call
    case Edit(h, e) => [Write(h, e)]
    case Sync(h, answered, gap, ok) => [Head(h, answered), Upload(h, gap, ok), Observe(h), Record(h)]
    case DiesUploading(h, answered, gap) => [Head(h, answered), Upload(h, gap, true), Crash(h)]
    case Restore(h, answered, outcome) => [ResumeHead(h, answered), Extract(h, outcome), Observe(h), Record(h)]
    case DiesRestoring(h, answered, outcome) => [ResumeHead(h, answered), Extract(h, outcome), Crash(h)]
    case Discover(h) => [ReadMetadata(h), Import(h)]
    case Forgets(h) => [Forget(h)]
    case LosesDisk(h) => [LoseDisk(h)]
  }

  /** The read-back and the record that close an upload or a restore. */
  function Finish(w: World, h: HostId): World {
    P.Do(P.Do(w, Observe(h)), Record(h))
  }

  function Do(w: World, call: Call): World {
    match call
    case Edit(h, e) => P.Do(w, Write(h, e))
    case Sync(h, answered, gap, ok) => Finish(P.Do(P.Do(w, Head(h, answered)), Upload(h, gap, ok)), h)
    case DiesUploading(h, answered, gap) => P.Do(P.Do(P.Do(w, Head(h, answered)), Upload(h, gap, true)), Crash(h))
    case Restore(h, answered, outcome) => Finish(P.Do(P.Do(w, ResumeHead(h, answered)), Extract(h, outcome)), h)
    case DiesRestoring(h, answered, outcome) => P.Do(P.Do(P.Do(w, ResumeHead(h, answered)), Extract(h, outcome)),
        Crash(h))
    case Discover(h) => P.Do(P.Do(w, ReadMetadata(h)), Import(h))
    case Forgets(h) => P.Do(w, Forget(h))
    case LosesDisk(h) => P.Do(w, LoseDisk(h))
  }

  function Run(w: World, calls: seq<Call>): World
    decreases |calls|
  {
    if calls == [] then w else Run(Do(w, calls[0]), calls[1..])
  }

  predicate Resting(w: World) {
    forall h :: h in w.hosts ==> w.hosts[h].op.Idle?
  }

  predicate RestingBut(w: World, h: HostId) {
    forall k :: k in w.hosts && k != h ==> w.hosts[k].op.Idle?
  }

  predicate Uploads(call: Call) {
    (call.Sync? && call.ok) || call.DiesUploading?
  }

  /** An upload by a host with no recorded timestamp, or without an answer to its head
      request, while its tree does not extend what is stored. */
  predicate Overwrites(w: World, call: Call) {
    && Uploads(call) && (At(w, call.h).sync.None? || !call.answered)
    && At(w, call.h).known && At(w, call.h).tree.Some?
    && w.cell.Some? && !Descends(At(w, call.h).tree.value, w.cell.value.tree)
  }

  predicate NeverOverwrites(w: World, calls: seq<Call>)
    decreases |calls|
  {
    calls == [] || (!Overwrites(w, calls[0]) && NeverOverwrites(Do(w, calls[0]), calls[1..]))
  }

  // ---------------------------------------------------------------- one call

  predicate OnlyOf(steps: seq<Step>, h: HostId) {
    forall i :: 0 <= i < |steps| ==> steps[i].h == h
  }

  /** While the others rest, nobody's window is in the way. */
  lemma {:induction false} AloneIsExclusive(w: World, steps: seq<Step>, h: HostId)
    requires RestingBut(w, h) && OnlyOf(steps, h)
    ensures Exclusively(w, steps) && RestingBut(P.Run(w, steps), h)
    decreases |steps|
  {
    if steps != [] {
      AloneIsExclusive(P.Do(w, steps[0]), steps[1..], h);
    }
  }

  lemma RunOfOne(w: World, a: Step)
    ensures P.Run(w, [a]) == P.Do(w, a)
  {
    assert [a][1..] == [];
  }

  lemma RunOfTwo(w: World, a: Step, b: Step)
    ensures P.Run(w, [a, b]) == P.Do(P.Do(w, a), b)
  {
    assert [a, b][1..] == [b];
    RunOfOne(P.Do(w, a), b);
  }

  lemma RunOfThree(w: World, a: Step, b: Step, c: Step)
    ensures P.Run(w, [a, b, c]) == P.Do(P.Do(P.Do(w, a), b), c)
  {
    assert [a, b, c][1..] == [b, c];
    RunOfTwo(P.Do(w, a), b, c);
  }

  lemma RunOfFour(w: World, a: Step, b: Step, c: Step, d: Step)
    ensures P.Run(w, [a, b, c, d]) == P.Do(P.Do(P.Do(P.Do(w, a), b), c), d)
  {
    assert [a, b, c, d][1..] == [b, c, d];
    RunOfThree(P.Do(w, a), b, c, d);
  }

  lemma DoIsRun(w: World, call: Call)
    ensures Do(w, call) == P.Run(w, StepsOf(call))
  {
    match call
    case Sync(h, answered, gap, ok) => RunOfFour(w, Head(h, answered), Upload(h, gap, ok), Observe(h), Record(h));
    case DiesUploading(h, answered, gap) => RunOfThree(w, Head(h, answered), Upload(h, gap, true), Crash(h));
    case Restore(h, answered, outcome) => RunOfFour(w, ResumeHead(h, answered), Extract(h, outcome), Observe(h),
        Record(h));
    case DiesRestoring(h, answered, outcome) => RunOfThree(w, ResumeHead(h, answered), Extract(h, outcome), Crash(h));
    case Discover(h) => RunOfTwo(w, ReadMetadata(h), Import(h));
    case Edit(h, e) => RunOfOne(w, Write(h, e));
    case Forgets(h) => RunOfOne(w, Forget(h));
    case LosesDisk(h) => RunOfOne(w, LoseDisk(h));
  }

  lemma CallEndsAtRest(w: World, call: Call)
    requires Timely(w) && Resting(w)
    ensures At(Do(w, call), call.h).op.Idle?
  {
    var h := call.h;
    if call.Sync? {
      SyncEndsAtRest(w, h, call.answered, call.gap, call.ok);
    } else if call.Restore? {
      RestoreEndsAtRest(w, h, call.answered, call.outcome);
    }
  }

  lemma SyncEndsAtRest(w: World, h: HostId, answered: bool, gap: nat, ok: bool)
    requires At(w, h).op.Idle?
    ensures At(P.Do(P.Do(P.Do(P.Do(w, Head(h, answered)), Upload(h, gap, ok)), Observe(h)), Record(h)), h).op.Idle?
  {
    var uploaded := P.Do(P.Do(w, Head(h, answered)), Upload(h, gap, ok));
    assert At(uploaded, h).op.Idle? || (At(uploaded, h).op.Uploaded? && uploaded.cell.Some?);
  }

  lemma RestoreEndsAtRest(w: World, h: HostId, answered: bool, outcome: Outcome)
    requires At(w, h).op.Idle?
    ensures At(P.Do(P.Do(P.Do(P.Do(w, ResumeHead(h, answered)), Extract(h, outcome)), Observe(h)), Record(h)),
        h).op.Idle?
  {
    var extracted := P.Do(P.Do(w, ResumeHead(h, answered)), Extract(h, outcome));
    assert At(extracted, h).op.Idle? || (At(extracted, h).op.Restored? && extracted.cell.Some?);
  }

  lemma CallKeepsTruthful(w: World, call: Call)
    requires Truthful(w) && Resting(w)
    ensures Truthful(Do(w, call)) && Resting(Do(w, call))
  {
    DoIsRun(w, call);
    AloneIsExclusive(w, StepsOf(call), call.h);
    ExclusiveRunsTaintNobody(w, StepsOf(call));
    CallEndsAtRest(w, call);
  }

  /** The host's own version goes into the store. */
  predicate Stores(w: World, call: Call) {
    && Uploads(call) && At(w, call.h).known && At(w, call.h).tree.Some?
    && !Refuses(w.cell, At(w, call.h).sync, call.answered)
  }

  lemma HeadThenUpload(w: World, h: HostId, answered: bool, gap: nat, ok: bool)
    requires At(w, h).op.Idle?
    ensures var host, uploaded := At(w, h), P.Do(P.Do(w, Head(h, answered)), Upload(h, gap, ok));
      uploaded.log == if ok && host.known && host.tree.Some? && !Refuses(w.cell, host.sync, answered)
                      then w.log + [NextVersion(w.cell, host, gap)] else w.log
  {
  }

  lemma {:induction false} OnlyUploadsAreLogged(w: World, steps: seq<Step>)
    requires forall i :: 0 <= i < |steps| ==> !steps[i].Upload?
    ensures P.Run(w, steps).log == w.log
    decreases |steps|
  {
    if steps != [] {
      OnlyUploadsAreLogged(P.Do(w, steps[0]), steps[1..]);
    }
  }

  /** What a call adds to the history. */
  lemma CallUploads(w: World, call: Call)
    requires Resting(w)
    ensures Do(w, call).log == if Stores(w, call) then w.log + [NextVersion(w.cell, At(w, call.h), call.gap)] else w.log
  {
    if call.Sync? {
        HeadThenUpload(w, call.h, call.answered, call.gap, call.ok);
    } else if call.DiesUploading? {
        HeadThenUpload(w, call.h, call.answered, call.gap, true);
    } else {
      DoIsRun(w, call);
      OnlyUploadsAreLogged(w, StepsOf(call));
    }
  }

  /** One call keeps the versions a chain if and only if it does not overwrite. */
  lemma ChainAfterCallIff(w: World, call: Call)
    requires Truthful(w) && Resting(w) && Chain(w.log)
    ensures Chain(Do(w, call).log) <==> !Overwrites(w, call)
  {
    CallUploads(w, call);
    if Stores(w, call) {
      var host := At(w, call.h);
      assert HostTruthful(w, host);
      ChainAfterUpload(w, NextVersion(w.cell, host, call.gap));
      GuardMeansUpToDate(w, host);
    }
  }

  // ---------------------------------------------------------------- whole runs

  lemma {:induction false} LogOnlyGrows(w: World, calls: seq<Call>)
    ensures w.log <= Run(w, calls).log
    decreases |calls|
  {
    if calls != [] {
      DoIsRun(w, calls[0]);
      LogGrows(w, StepsOf(calls[0]));
      LogOnlyGrows(Do(w, calls[0]), calls[1..]);
    }
  }

  lemma {:induction false} RunIsLinearIff(w: World, calls: seq<Call>)
    requires Truthful(w) && Resting(w) && Chain(w.log)
    ensures Chain(Run(w, calls).log) <==> NeverOverwrites(w, calls)
    decreases |calls|
  {
    if calls != [] {
      var w' := Do(w, calls[0]);
      CallKeepsTruthful(w, calls[0]);
      ChainAfterCallIff(w, calls[0]);
      if Overwrites(w, calls[0]) {
        LogOnlyGrows(w', calls[1..]);
        if Chain(Run(w, calls).log) { BrokenStaysBroken(w'.log, Run(w, calls).log); }
      } else {
        RunIsLinearIff(w', calls[1..]);
      }
    }
  }

  /** From a session's creation on, on any number of hosts, with discoveries, unanswered head
      requests, deaths in the middle of uploads and restores, forgotten sessions and lost
      disks: the versions are one chain, in which no uploaded edit is ever lost, if and only
      if no call overwrites. */
  lemma EveryRunIsLinearIff(creator: HostId, calls: seq<Call>)
    ensures Chain(Run(Initial(creator), calls).log) <==> NeverOverwrites(Initial(creator), calls)
  {
    InitialIsTruthful(creator);
    RunIsLinearIff(Initial(creator), calls);
  }

  // ---------------------------------------------------------------- when nothing overwrites

  /** Only the creator knows the session while nothing is stored, and from then on every host
      that knows it has a timestamp. */
  predicate Stamped(w: World) {
    forall h :: h in w.hosts && w.hosts[h].known ==>
      (w.cell.None? ==> h == w.creator) && (w.hosts[h].sync.None? ==> w.cell.None?)
  }

  /** Neither imports a timestamp nor leaves an upload unrecorded, and its upload is answered. */
  predicate Plain(call: Call) {
    !call.Discover? && !call.DiesUploading? && (call.Sync? ==> call.answered)
  }

  lemma PlainCallKeepsStamped(w: World, call: Call)
    requires Truthful(w) && Resting(w) && Stamped(w) && Plain(call)
    ensures Stamped(Do(w, call)) && !Overwrites(w, call)
  {
    if call.Sync? {
      SyncKeepsStamped(w, call);
    } else if call.Restore? {
      RestoreKeepsStamped(w, call);
    } else if call.DiesRestoring? {
      DeathKeepsStamped(w, call);
    } else {
        QuietStepKeepsStamped(w, StepsOf(call)[0]);
    }
  }

  lemma DeathKeepsStamped(w: World, call: Call)
    requires Truthful(w) && Stamped(w) && call.DiesRestoring?
    ensures Stamped(Do(w, call))
  {
    var w1 := P.Do(w, ResumeHead(call.h, call.answered));
    QuietStepKeepsStamped(w, ResumeHead(call.h, call.answered));
    QuietStepKeepsStamped(w1, Extract(call.h, call.outcome));
    QuietStepKeepsStamped(P.Do(w1, Extract(call.h, call.outcome)), Crash(call.h));
  }

  lemma SyncKeepsStamped(w: World, call: Call)
    requires Truthful(w) && Resting(w) && Stamped(w) && call.Sync? && call.answered
    ensures Stamped(Do(w, call))
  {
    var h := call.h;
    var uploaded := P.Do(P.Do(w, Head(h, true)), Upload(h, call.gap, call.ok));
    var w' := Do(w, call);
    OthersUntouched(w, Head(h, true));
    OthersUntouched(P.Do(w, Head(h, true)), Upload(h, call.gap, call.ok));
    OthersUntouched(uploaded, Observe(h));
    OthersUntouched(P.Do(uploaded, Observe(h)), Record(h));
    SyncStampsItsHost(w, call);
    forall k | k in w'.hosts && k != h ensures k in w.hosts && w'.hosts[k] == w.hosts[k] {
      assert k in uploaded.hosts && uploaded.hosts[k] == w.hosts[k];
    }
  }

  lemma SyncStampsItsHost(w: World, call: Call)
    requires Truthful(w) && Resting(w) && Stamped(w) && call.Sync? && call.answered
    ensures var w', host := Do(w, call), At(Do(w, call), call.h);
      && w'.creator == w.creator
      && (host.known ==> (w'.cell.None? ==> call.h == w.creator) && (host.sync.None? ==> w'.cell.None?))
      && (w.cell.Some? ==> w'.cell.Some?) && (w'.cell != w.cell ==> At(w, call.h).known && w'.cell.Some?)
  {
  }

  lemma RestoreKeepsStamped(w: World, call: Call)
    requires Truthful(w) && Resting(w) && Stamped(w) && call.Restore?
    ensures Stamped(Do(w, call))
  {
    var h := call.h;
    var w1 := P.Do(w, ResumeHead(h, call.answered));
    var w2 := P.Do(w1, Extract(h, call.outcome));
    var w3 := P.Do(w2, Observe(h));
    QuietStepKeepsStamped(w, ResumeHead(h, call.answered));
    QuietStepKeepsStamped(w1, Extract(h, call.outcome));
    QuietStepKeepsStamped(w2, Observe(h));
    QuietStepKeepsStamped(w3, Record(h));
  }

  lemma AloneStepKeepsTruthful(w: World, step: Step)
    requires Truthful(w) && !step.Upload?
    ensures Truthful(P.Do(w, step))
  {
    P.StepKeepsTruthful(w, {}, step);
    assert Taint(w, {}, step) == {};
  }

  lemma OwnStamp(w: World, step: Step)
    requires Truthful(w) && Stamped(w)
    requires !step.Head? && !step.Upload? && !step.ReadMetadata? && !step.Import? && !step.Cancel?
    ensures var host := At(P.Do(w, step), step.h);
      host.known ==> (w.cell.None? ==> step.h == w.creator) && (host.sync.None? ==> w.cell.None?)
  {
    assert step.h in w.hosts ==> HostTruthful(w, w.hosts[step.h]);
  }

  lemma QuietStepKeepsStamped(w: World, step: Step)
    requires Truthful(w) && Stamped(w)
    requires !step.Head? && !step.Upload? && !step.ReadMetadata? && !step.Import? && !step.Cancel?
    ensures Truthful(P.Do(w, step)) && Stamped(P.Do(w, step))
  {
    AloneStepKeepsTruthful(w, step);
    OnlyItsOwnHost(w, step);
    assert step.h in w.hosts ==> HostTruthful(w, w.hosts[step.h]);
    forall h | h in P.Do(w, step).hosts && P.Do(w, step).hosts[h].known
      ensures w.cell.None? ==> h == w.creator
      ensures P.Do(w, step).hosts[h].sync.None? ==> w.cell.None?
    {
      if h == step.h { OwnStamp(w, step); }
    }
  }

  lemma {:induction false} PlainRunsNeverOverwrite(w: World, calls: seq<Call>)
    requires Truthful(w) && Resting(w) && Stamped(w)
    requires forall i :: 0 <= i < |calls| ==> Plain(calls[i])
    ensures NeverOverwrites(w, calls)
    decreases |calls|
  {
    if calls != [] {
      PlainCallKeepsStamped(w, calls[0]);
      CallKeepsTruthful(w, calls[0]);
      PlainRunsNeverOverwrite(Do(w, calls[0]), calls[1..]);
    }
  }

  /** Edits, answered checkpoints and pauses, resumes, deaths while restoring, forgotten
      sessions and lost disks alone never break the chain. */
  lemma EveryRunStaysLinear(creator: HostId, calls: seq<Call>)
    requires forall i :: 0 <= i < |calls| ==> Plain(calls[i])
    ensures Chain(Run(Initial(creator), calls).log)
  {
    InitialIsTruthful(creator);
    PlainRunsNeverOverwrite(Initial(creator), calls);
    EveryRunIsLinearIff(creator, calls);
  }

  // ---------------------------------------------------------------- a run that overwrites

  /** The creator dies between its first upload and the record; another host restores that
      version, edits and uploads; the creator has no timestamp to compare and overwrites. */
  const FatalRun: seq<Call> :=
    [Edit(0, 1), DiesUploading(0, true, 0), Restore(1, true, Ok), Edit(1, 2), Sync(1, true, 0, true), Edit(0, 3)]

  /** The same run after the creator's death. */
  const CreatorDied := World(0, Some(Version([1], 1, None)), map[0 := Host(true, None, Some([1]), Idle)],
      [Version([1], 1, None)])

  lemma UntilTheDeath()
    ensures Do(Do(Initial(0), FatalRun[0]), FatalRun[1]) == CreatorDied
  {
    var w1 := Do(Initial(0), Edit(0, 1));
    assert [] + [1] == [1];
    assert w1 == World(0, None, map[0 := Host(true, None, Some([1]), Idle)], []);
    assert [] + [Version([1], 1, None)] == [Version([1], 1, None)];
    assert Do(w1, DiesUploading(0, true, 0)).hosts == CreatorDied.hosts;
  }

  const Restored1 := World(0, Some(Version([1], 1, None)),
                           map[0 := Host(true, None, Some([1]), Idle), 1 := Host(true, Some(1), Some([1, 2]), Idle)],
                           [Version([1], 1, None)])

  lemma UntilTheOtherEdit()
    ensures Do(Do(CreatorDied, FatalRun[2]), FatalRun[3]) == Restored1
  {
    var w3 := Do(CreatorDied, Restore(1, true, Ok));
    assert At(w3, 1) == Host(true, Some(1), Some([1]), Idle);
    assert w3.hosts == map[0 := Host(true, None, Some([1]), Idle), 1 := Host(true, Some(1), Some([1]), Idle)];
    assert [1] + [2] == [1, 2];
    assert Do(w3, Edit(1, 2)).hosts == Restored1.hosts;
  }

  lemma UntilTheStaleEdit()
    ensures Do(Do(Restored1, FatalRun[4]), FatalRun[5]) == DiedRecording
  {
    var w5 := Do(Restored1, Sync(1, true, 0, true));
    assert At(w5, 1) == Host(true, Some(2), Some([1, 2]), Idle);
    assert w5.log == DiedRecording.log;
    assert [1] + [3] == [1, 3];
    assert Do(w5, Edit(0, 3)).hosts == DiedRecording.hosts;
  }

  lemma DeathBeforeTheRecordOverwrites()
    ensures Run(Initial(0), FatalRun) == DiedRecording
    ensures Overwrites(DiedRecording, Sync(0, true, 0, true))
  {
    FatalRunEnds();
    NothingToCompare();
  }

  lemma NothingToCompare()
    ensures Overwrites(DiedRecording, Sync(0, true, 0, true))
  {
    assert At(DiedRecording, 0) == Host(true, None, Some([1, 3]), Idle);
    assert [1, 2][1] != [1, 3][1];
  }

  lemma FatalRunEnds()
    ensures Run(Initial(0), FatalRun) == DiedRecording
  {
    UntilTheDeath();
    UntilTheOtherEdit();
    UntilTheStaleEdit();
    RunOfSix(Initial(0), FatalRun, CreatorDied, Restored1, DiedRecording);
  }

  lemma RunOfPair(w: World, calls: seq<Call>, w': World)
    requires |calls| >= 2 && Do(Do(w, calls[0]), calls[1]) == w'
    ensures Run(w, calls) == Run(w', calls[2..])
  {
    assert calls[1..][0] == calls[1] && calls[1..][1..] == calls[2..];
    assert Run(Do(w, calls[0]), calls[1..]) == Run(w', calls[2..]);
  }

  lemma RunOfSix(w: World, r: seq<Call>, w1: World, w2: World, w3: World)
    requires |r| == 6 && Do(Do(w, r[0]), r[1]) == w1 && Do(Do(w1, r[2]), r[3]) == w2 && Do(Do(w2, r[4]), r[5]) == w3
    ensures Run(w, r) == w3
  {
    RunOfPair(w, r, w1);
    RunOfPair(w1, r[2..], w2);
    assert r[2..][2..] == r[4..];
    RunOfPair(w2, r[4..], w3);
    assert r[4..][2..] == [];
  }

  // ---------------------------------------------------------------- a left-over worktree

  /** Both hosts forget the session and discover it again with metadata of an upload that had
      no timestamp yet: host 1 uploads its edit, and host 0 then overwrites it. */
  function LeftoverRun(a: Edit, b: Edit, c: Edit): seq<Call> {
    [Edit(0, a), Sync(0, true, 0, true), Restore(1, true, Ok), Edit(1, b), Forgets(1), Discover(1),
     Sync(1, true, 0, true), Edit(0, c), Forgets(0), Discover(0)]
  }

  function First(a: Edit): Version {
    Version([a], 1, None)
  }

  function Other(a: Edit, b: Edit): Version {
    Version([a, b], 2, None)
  }

  function BothHosts(log: seq<Version>, host0: Host, host1: Host): World
    requires log != []
  {
    World(0, Some(log[|log| - 1]), map[0 := host0, 1 := host1], log)
  }

  function Stored(a: Edit): World {
    World(0, Some(First(a)), map[0 := Host(true, Some(1), Some([a]), Idle)], [First(a)])
  }

  function Edited(a: Edit, b: Edit): World {
    BothHosts([First(a)], Host(true, Some(1), Some([a]), Idle), Host(true, Some(1), Some([a, b]), Idle))
  }

  function Rediscovered(a: Edit, b: Edit): World {
    BothHosts([First(a)], Host(true, Some(1), Some([a]), Idle), Host(true, None, Some([a, b]), Idle))
  }

  function Diverged(a: Edit, b: Edit, c: Edit): World {
    BothHosts([First(a), Other(a, b)], Host(true, Some(1), Some([a, c]), Idle), Host(true, Some(2), Some([a, b]), Idle))
  }

  function Unaware(a: Edit, b: Edit, c: Edit): World {
    BothHosts([First(a), Other(a, b)], Host(true, None, Some([a, c]), Idle), Host(true, Some(2), Some([a, b]), Idle))
  }

  lemma ToStored(a: Edit)
    ensures Do(Do(Initial(0), Edit(0, a)), Sync(0, true, 0, true)) == Stored(a)
  {
    var w := Do(Initial(0), Edit(0, a));
    assert [] + [a] == [a];
    assert w == World(0, None, map[0 := Host(true, None, Some([a]), Idle)], []);
    assert [] + [First(a)] == [First(a)];
    assert Do(w, Sync(0, true, 0, true)).hosts == Stored(a).hosts;
  }

  lemma ToEdited(a: Edit, b: Edit)
    ensures Do(Do(Stored(a), Restore(1, true, Ok)), Edit(1, b)) == Edited(a, b)
  {
    var w := Do(Stored(a), Restore(1, true, Ok));
    assert At(w, 1) == Host(true, Some(1), Some([a]), Idle);
    assert [a] + [b] == [a, b];
    assert Do(w, Edit(1, b)).hosts == Edited(a, b).hosts;
  }

  lemma ToRediscovered(a: Edit, b: Edit)
    ensures Do(Do(Edited(a, b), Forgets(1)), Discover(1)) == Rediscovered(a, b)
  {
    var w := Do(Edited(a, b), Forgets(1));
    assert At(w, 1) == Host(false, Some(1), Some([a, b]), Idle);
    assert Do(w, Discover(1)).hosts == Rediscovered(a, b).hosts;
  }

  lemma ToDiverged(a: Edit, b: Edit, c: Edit)
    ensures Do(Do(Rediscovered(a, b), Sync(1, true, 0, true)), Edit(0, c)) == Diverged(a, b, c)
  {
    var w := Do(Rediscovered(a, b), Sync(1, true, 0, true));
    assert At(w, 1) == Host(true, Some(2), Some([a, b]), Idle);
    assert [First(a)] + [Other(a, b)] == [First(a), Other(a, b)];
    assert w.log == [First(a), Other(a, b)];
    assert [a] + [c] == [a, c];
    assert Do(w, Edit(0, c)).hosts == Diverged(a, b, c).hosts;
  }

  lemma ToUnaware(a: Edit, b: Edit, c: Edit)
    ensures Do(Do(Diverged(a, b, c), Forgets(0)), Discover(0)) == Unaware(a, b, c)
  {
    var w := Do(Diverged(a, b, c), Forgets(0));
    assert At(w, 0) == Host(false, Some(1), Some([a, c]), Idle);
    assert Do(w, Discover(0)).hosts == Unaware(a, b, c).hosts;
  }

  lemma RunToStored(a: Edit, b: Edit, c: Edit)
    ensures Run(Initial(0), LeftoverRun(a, b, c)[0..]) == Run(Stored(a), LeftoverRun(a, b, c)[2..])
  {
    var r := LeftoverRun(a, b, c);
    ToStored(a);
    RunOfPair(Initial(0), r[0..], Stored(a));
    assert r[0..][2..] == r[2..];
  }

  lemma RunToEdited(a: Edit, b: Edit, c: Edit)
    ensures Run(Stored(a), LeftoverRun(a, b, c)[2..]) == Run(Edited(a, b), LeftoverRun(a, b, c)[4..])
  {
    var r := LeftoverRun(a, b, c);
    ToEdited(a, b);
    RunOfPair(Stored(a), r[2..], Edited(a, b));
    assert r[2..][2..] == r[4..];
  }

  lemma RunToRediscovered(a: Edit, b: Edit, c: Edit)
    ensures Run(Edited(a, b), LeftoverRun(a, b, c)[4..]) == Run(Rediscovered(a, b), LeftoverRun(a, b, c)[6..])
  {
    var r := LeftoverRun(a, b, c);
    ToRediscovered(a, b);
    RunOfPair(Edited(a, b), r[4..], Rediscovered(a, b));
    assert r[4..][2..] == r[6..];
  }

  lemma RunToDiverged(a: Edit, b: Edit, c: Edit)
    ensures Run(Rediscovered(a, b), LeftoverRun(a, b, c)[6..]) == Run(Diverged(a, b, c), LeftoverRun(a, b, c)[8..])
  {
    var r := LeftoverRun(a, b, c);
    ToDiverged(a, b, c);
    RunOfPair(Rediscovered(a, b), r[6..], Diverged(a, b, c));
    assert r[6..][2..] == r[8..];
  }

  lemma RunToUnaware(a: Edit, b: Edit, c: Edit)
    ensures Run(Diverged(a, b, c), LeftoverRun(a, b, c)[8..]) == Run(Unaware(a, b, c), LeftoverRun(a, b, c)[10..])
  {
    var r := LeftoverRun(a, b, c);
    ToUnaware(a, b, c);
    RunOfPair(Diverged(a, b, c), r[8..], Unaware(a, b, c));
    assert r[8..][2..] == r[10..];
  }

  lemma LeftoverHalf(a: Edit, b: Edit, c: Edit)
    ensures Run(Initial(0), LeftoverRun(a, b, c)) == Run(Rediscovered(a, b), LeftoverRun(a, b, c)[6..])
  {
    RunToStored(a, b, c);
    RunToEdited(a, b, c);
    RunToRediscovered(a, b, c);
    assert LeftoverRun(a, b, c)[0..] == LeftoverRun(a, b, c);
  }

  lemma LeftoverWorktreeOverwrites(a: Edit, b: Edit, c: Edit)
    requires b != c
    ensures Run(Initial(0), LeftoverRun(a, b, c)) == Unaware(a, b, c)
    ensures Overwrites(Unaware(a, b, c), Sync(0, true, 0, true))
  {
    LeftoverHalf(a, b, c);
    RunToDiverged(a, b, c);
    RunToUnaware(a, b, c);
    assert LeftoverRun(a, b, c)[10..] == [];
    UnawareOverwrites(a, b, c);
  }

  lemma UnawareOverwrites(a: Edit, b: Edit, c: Edit)
    requires b != c
    ensures Overwrites(Unaware(a, b, c), Sync(0, true, 0, true))
  {
    assert At(Unaware(a, b, c), 0).tree == Some([a, c]);
    assert [a, b][1] != [a, c][1];
  }
}
