/** Several hosts share one S3 object per session. Before uploading, a host compares the
    object's LastModified with the timestamp it recorded last; after uploading or restoring
    it records LastModified again. Reading, uploading, observing and recording are separate
    steps here, interleaved freely over any number of hosts. */
module CheckpointProtocol {
  import opened Options

  /** A worktree is its editing history, so one tree descends from another exactly when the
      other's history is a prefix of its own. */
  type Edit = nat
  type Tree = seq<Edit>

  predicate Descends(t: Tree, ancestor: Tree) {
    ancestor <= t
  }

  /** `stamp` is LastModified; `meta` is s3_last_sync in the metadata copy, which was written
      before the uploader advanced its own. */
  datatype Version = Version(tree: Tree, stamp: nat, meta: Option<nat>)

  /** Where a host's checkpoint, pause, resume or discovery is suspended. */
  datatype Op =
    | Idle
    | Cleared(guarded: bool)      // an upload may go ahead; did the guard compare anything?
    | Uploaded                    // uploaded, LastModified not read back yet
    | Restoring                   // about to extract the archive
    | Restored                    // extracted, LastModified not read back yet
    | Observed(stamp: nat)        // LastModified read back, not recorded yet
    | Imported(meta: Option<nat>) // metadata downloaded by discovery

  /** `known`: the session is in memory (and in session.json). `sync` is s3_last_sync. The
      worktree stays on disk whether or not the session is known. */
  datatype Host = Host(known: bool, sync: Option<nat>, tree: Option<Tree>, op: Op)

  const Stranger := Host(false, None, None, Idle)

  type HostId = nat

  datatype World = World(creator: HostId, cell: Option<Version>, hosts: map<HostId, Host>, log: seq<Version>)

  function At(w: World, h: HostId): Host {
    if h in w.hosts then w.hosts[h] else Stranger
  }

  function Put(w: World, h: HostId, host: Host): World {
    w.(hosts := w.hosts[h := host])
  }

  /** create_session on one host: a fresh worktree, nothing in S3, no timestamp. */
  function Initial(creator: HostId): World {
    World(creator, None, map[creator := Host(true, None, Some([]), Idle)], [])
  }

  // ---------------------------------------------------------------- decisions

  /** S3 is newer than what this host recorded; never so while nothing is recorded. */
  predicate Newer(cell: Option<Version>, sync: Option<nat>) {
    cell.Some? && sync.Some? && cell.value.stamp > sync.value
  }

  /** The guard. A failed head request reads as "no object", so it refuses nothing. */
  predicate Refuses(cell: Option<Version>, sync: Option<nat>, readable: bool) {
    readable && Newer(cell, sync)
  }

  function OrZero(t: Option<nat>): nat {
    match t case None => 0 case Some(n) => n
  }

  function NextVersion(cell: Option<Version>, host: Host, gap: nat): Version
    requires host.tree.Some?
  {
    Version(host.tree.value, (if cell.Some? then cell.value.stamp else 0) + 1 + gap, host.sync)
  }

  // ---------------------------------------------------------------- steps

  datatype Outcome = Ok | ArchiveFails | NoMetadata

  datatype Step =
    | Write(h: HostId, e: Edit)
    | Head(h: HostId, readable: bool)         // checkpoint or pause reads LastModified
    | Upload(h: HostId, gap: nat, ok: bool)
    | ResumeHead(h: HostId, readable: bool)   // resume decides whether to restore
    | Extract(h: HostId, outcome: Outcome)
    | Observe(h: HostId)                      // the read-back after upload or restore
    | Record(h: HostId)
    | ReadMetadata(h: HostId)                 // discovery
    | Import(h: HostId)
    | Cancel(h: HostId)                       // before the shielded part
    | Crash(h: HostId)                        // the process dies; session.json survives
    | Forget(h: HostId)                       // session.json is lost, the worktree is not
    | LoseDisk(h: HostId)

  function Do(w: World, step: Step): World {
    var h := step.h;
    var host := At(w, h);
    match step
    case Write(_, e) =>
      if host.known && host.tree.Some? then Put(w, h, host.(tree := Some(host.tree.value + [e]))) else w
    case Head(_, readable) =>
      if !host.known || !host.op.Idle? || Refuses(w.cell, host.sync, readable) then w
      else Put(w, h, host.(op := Cleared(readable && host.sync.Some?)))
    case Upload(_, gap, ok) =>
      if !host.op.Cleared? then w
      else if !ok || host.tree.None? then Put(w, h, host.(op := Idle))
      else
        var v := NextVersion(w.cell, host, gap);
        Put(w, h, host.(op := Uploaded)).(cell := Some(v), log := w.log + [v])
    case ResumeHead(_, readable) =>
      if !host.op.Idle? then w
      else
        var stale := host.known && Refuses(w.cell, host.sync, readable);
        if host.known && host.tree.Some? && !stale then w
        else Put(w, h, host.(tree := if stale then None else host.tree, op := Restoring))
    case Extract(_, outcome) =>
      if !host.op.Restoring? then w
      else if w.cell.None? || outcome.NoMetadata? then Put(w, h, host.(op := Idle))
      else if outcome.ArchiveFails? then Put(w, h, host.(tree := None, op := Idle))
      else Put(w, h, host.(tree := Some(w.cell.value.tree), op := Restored))
    case Observe(_) =>
      if (host.op.Uploaded? || host.op.Restored?) && w.cell.Some?
          then Put(w, h, host.(op := Observed(w.cell.value.stamp))) else w
    case Record(_) =>
      if host.op.Observed? then Put(w, h, host.(known := true, sync := Some(host.op.stamp), op := Idle)) else w
    case ReadMetadata(_) =>
      if host.op.Idle? && w.cell.Some? then Put(w, h, host.(op := Imported(w.cell.value.meta))) else w
    case Import(_) =>
      if !host.op.Imported? then w
      else if host.known && OrZero(host.op.meta) <= OrZero(host.sync) then Put(w, h, host.(op := Idle))
      else Put(w, h, Host(true, host.op.meta, if host.known then None else host.tree, Idle))
    case Cancel(_) =>
      if host.op.Cleared? then Put(w, h, host.(op := Idle)) else w
    case Crash(_) => Put(w, h, host.(op := Idle))
    case Forget(_) => Put(w, h, host.(known := false, op := Idle))
    case LoseDisk(_) => Put(w, h, Stranger)
  }

  function Run(w: World, steps: seq<Step>): World
    decreases |steps|
  {
    if steps == [] then w else Run(Do(w, steps[0]), steps[1..])
  }

  // ---------------------------------------------------------------- timestamps never run ahead

  ghost predicate NotAhead(cell: Option<Version>, t: Option<nat>) {
    t.Some? ==> cell.Some? && t.value <= cell.value.stamp
  }

  /** No recorded, observed or imported timestamp exceeds LastModified. */
  ghost predicate Timely(w: World) {
    && (w.cell.Some? ==> w.cell.value.meta.Some? ==> w.cell.value.meta.value < w.cell.value.stamp)
    && forall h :: h in w.hosts ==> HostTimely(w.cell, w.hosts[h])
  }

  ghost predicate HostTimely(cell: Option<Version>, host: Host) {
    && NotAhead(cell, host.sync)
    && (host.op.Observed? ==> NotAhead(cell, Some(host.op.stamp)))
    && (host.op.Imported? ==> cell.Some? && (host.op.meta.Some? ==> host.op.meta.value < cell.value.stamp))
  }

  lemma OwnHostIsTimely(w: World, step: Step)
    requires Timely(w)
    ensures HostTimely(Do(w, step).cell, At(Do(w, step), step.h))
  {
    assert HostTimely(w.cell, At(w, step.h));
  }

  lemma StepIsTimely(w: World, step: Step)
    requires Timely(w)
    ensures Timely(Do(w, step))
  {
    var w' := Do(w, step);
    OwnHostIsTimely(w, step);
    OthersUntouched(w, step);
    forall k | k in w'.hosts ensures HostTimely(w'.cell, w'.hosts[k]) {
      if k != step.h {
        assert HostTimely(w.cell, w.hosts[k]);
      }
    }
  }

  lemma OthersUntouched(w: World, step: Step)
    ensures forall k :: k in Do(w, step).hosts && k != step.h ==> k in w.hosts && Do(w, step).hosts[k] == w.hosts[k]
    ensures Do(w, step).cell == w.cell || (At(w, step.h).tree.Some? && step.Upload?
              && Do(w, step).cell == Some(NextVersion(w.cell, At(w, step.h), step.gap)))
  {
  }

  /** In every interleaving, and with lagging metadata imported anywhere, every host's
      recorded timestamp is at most the object's LastModified. */
  lemma {:induction false} SyncNeverExceedsLastModified(creator: HostId, steps: seq<Step>, h: HostId)
    ensures NotAhead(Run(Initial(creator), steps).cell, At(Run(Initial(creator), steps), h).sync)
  {
    RunIsTimely(Initial(creator), steps);
  }

  lemma {:induction false} RunIsTimely(w: World, steps: seq<Step>)
    requires Timely(w)
    ensures Timely(Run(w, steps))
    decreases |steps|
  {
    if steps != [] {
      StepIsTimely(w, steps[0]);
      RunIsTimely(Do(w, steps[0]), steps[1..]);
    }
  }

  /** Only recording after a read-back advances a timestamp: a failed or refused upload, an
      edit, a crash or anybody else's step leaves it alone, and discovery moves it forward
      only together with the worktree's removal. */
  lemma OnlyRecordingAdvances(w: World, step: Step, h: HostId)
    requires At(w, h).known && At(Do(w, step), h).known
    requires At(Do(w, step), h).sync != At(w, h).sync
    ensures step.h == h
    ensures step.Record? ||
        (step.Import? && At(Do(w, step), h).tree.None? && OrZero(At(Do(w, step), h).sync) > OrZero(At(w, h).sync))
    ensures step.Record? ==> At(w, h).op.Observed? && At(Do(w, step), h).sync == Some(At(w, h).op.stamp)
  {
  }

  // ---------------------------------------------------------------- one linear history

  /** Every version's tree descends from all earlier ones: no uploaded edit is ever lost. */
  ghost predicate Chain(log: seq<Version>) {
    forall i, j :: 0 <= i < j < |log| ==> Descends(log[j].tree, log[i].tree) && log[i].stamp < log[j].stamp
  }

  ghost predicate LogEndsAtCell(w: World) {
    if w.log == [] then w.cell.None? else w.cell == Some(w.log[|w.log| - 1])
  }

  /** The host's tree extends what S3 holds now. */
  ghost predicate UpToDate(w: World, host: Host) {
    host.tree.Some? && (w.cell.Some? ==> Descends(host.tree.value, w.cell.value.tree))
  }

  /** A recorded timestamp means what the guard takes it to mean. */
  ghost predicate StampTruthful(w: World, host: Host) {
    host.known && host.tree.Some? && host.sync.Some? && w.cell.Some? && host.sync.value == w.cell.value.stamp ==>
        UpToDate(w, host)
  }

  ghost predicate HostTruthful(w: World, host: Host) {
    && StampTruthful(w, host)
    && match host.op
       case Cleared(guarded) => host.known && (guarded && host.tree.Some? ==> UpToDate(w, host))
       case Uploaded => w.cell.Some? && host.known && UpToDate(w, host)
       case Restored => w.cell.Some? && UpToDate(w, host)
       case Observed(t) => w.cell.Some? && (t == w.cell.value.stamp && host.tree.Some? ==> UpToDate(w, host))
       case _ => true
  }

  /** Every timestamp means what the guard takes it to mean, whether or not the history is
      still linear - but for the hosts of `tainted`. */
  ghost predicate TruthfulBut(w: World, tainted: set<HostId>) {
    && Timely(w) && LogEndsAtCell(w)
    && (forall h :: h in w.hosts && w.hosts[h].op.Cleared? ==> w.hosts[h].known)
    && forall h :: h in w.hosts && h !in tainted ==> HostTruthful(w, w.hosts[h])
  }

  ghost predicate Truthful(w: World) {
    TruthfulBut(w, {})
  }

  /** Between a reading of LastModified and the use made of it. */
  predicate MidWindow(op: Op) {
    op == Cleared(true) || op.Uploaded? || op.Restored?
  }

  predicate Uploads(w: World, step: Step) {
    step.Upload? && step.ok && At(w, step.h).op.Cleared? && At(w, step.h).tree.Some?
  }

  /** The hosts in whose window this upload lands. */
  function Raced(w: World, step: Step): set<HostId> {
    if Uploads(w, step) then set k | k in w.hosts && k != step.h && MidWindow(w.hosts[k].op) else {}
  }

  /** An observer's record of the hosts whose timestamp or guard may be wrong: an upload
      taints those it races with; uploading, extracting the archive, importing metadata and
      losing the session or the disk clear a host. */
  function Taint(w: World, tainted: set<HostId>, step: Step): set<HostId> {
    var host := At(w, step.h);
    match step
    case Upload(h, _, _) => if Uploads(w, step) then tainted + Raced(w, step) - {h} else tainted
    case Extract(h, outcome) => if host.op.Restoring? && w.cell.Some? && outcome.Ok? then tainted - {h} else tainted
    case Import(h) => if host.op.Imported? && (!host.known || OrZero(host.op.meta) > OrZero(host.sync))
        then tainted - {h} else tainted
    case Forget(h) => tainted - {h}
    case LoseDisk(h) => tainted - {h}
    case _ => tainted
  }

  /** An upload from a tree that does not extend what is stored, by a host for which the
      guard had nothing to compare - no timestamp recorded, or no answer to the head request -
      or that another upload has raced with. */
  predicate Overwrites(w: World, tainted: set<HostId>, step: Step) {
    && Uploads(w, step) && (At(w, step.h).op == Cleared(false) || step.h in tainted)
    && w.cell.Some? && !Descends(At(w, step.h).tree.value, w.cell.value.tree)
  }

  predicate NeverOverwrites(w: World, tainted: set<HostId>, steps: seq<Step>)
    decreases |steps|
  {
    steps == [] ||
    (!Overwrites(w, tainted, steps[0]) && NeverOverwrites(Do(w, steps[0]), Taint(w, tainted, steps[0]), steps[1..]))
  }

  /** No upload lands inside another host's window. */
  predicate Exclusively(w: World, steps: seq<Step>)
    decreases |steps|
  {
    steps == [] || (Raced(w, steps[0]) == {} && Exclusively(Do(w, steps[0]), steps[1..]))
  }

  lemma UploadKeepsTruthful(w: World, tainted: set<HostId>, step: Step)
    requires TruthfulBut(w, tainted) && step.Upload?
    ensures TruthfulBut(Do(w, step), Taint(w, tainted, step))
  {
    var w' := Do(w, step);
    StepIsTimely(w, step);
    forall k | k in w'.hosts && k !in Taint(w, tainted, step) ensures HostTruthful(w', w'.hosts[k]) {
      if k != step.h {
        assert HostTruthful(w, w.hosts[k]);
        assert Uploads(w, step) ==> !MidWindow(w.hosts[k].op);
      }
    }
  }

  /** Every step keeps the timestamps of the untainted hosts truthful. */
  lemma StepKeepsTruthful(w: World, tainted: set<HostId>, step: Step)
    requires TruthfulBut(w, tainted)
    ensures TruthfulBut(Do(w, step), Taint(w, tainted, step))
  {
    var w' := Do(w, step);
    if step.Upload? {
      UploadKeepsTruthful(w, tainted, step);
    } else {
      StepIsTimely(w, step);
      OnlyItsOwnHost(w, step);
      forall k | k in w'.hosts && k !in Taint(w, tainted, step) ensures HostTruthful(w', w'.hosts[k]) {
        if k != step.h {
          assert HostTruthful(w, w.hosts[k]);
        } else {
          OwnStepKeepsTruthful(w, tainted, step);
        }
      }
    }
  }

  lemma OnlyItsOwnHost(w: World, step: Step)
    requires !step.Upload?
    ensures var w' := Do(w, step);
      && w'.cell == w.cell && w'.log == w.log
      && (forall k :: k in w'.hosts && k != step.h ==> k in w.hosts && w'.hosts[k] == w.hosts[k])
      && (step.h in w'.hosts && w'.hosts[step.h].op.Cleared? ==>
            w'.hosts[step.h].known || (step.h in w.hosts && w.hosts[step.h].op.Cleared? && !w.hosts[step.h].known))
  {
  }

  lemma OwnStepKeepsTruthful(w: World, tainted: set<HostId>, step: Step)
    requires TruthfulBut(w, tainted) && !step.Upload? && step.h !in Taint(w, tainted, step)
    ensures HostTruthful(Do(w, step), At(Do(w, step), step.h))
  {
    var host, w' := At(w, step.h), Do(w, step);
    var host' := At(w', step.h);
    assert step.h !in tainted ==> HostTruthful(w, host);
    assert w'.cell == w.cell;
    if step.Write? && host.known && host.tree.Some? {
      assert host'.tree.value[..|host.tree.value|] == host.tree.value;
      if w.cell.Some? && Descends(host.tree.value, w.cell.value.tree) {
        PrefixTransitive(w.cell.value.tree, host.tree.value, host'.tree.value);
      }
    }
  }

  lemma PrefixTransitive(a: Tree, b: Tree, c: Tree)
    requires a <= b && b <= c
    ensures a <= c
  {
  }

  lemma ChainAfterUpload(w: World, v: Version)
    requires Chain(w.log) && LogEndsAtCell(w) && (w.cell.Some? ==> w.cell.value.stamp < v.stamp)
    ensures Chain(w.log + [v]) <==> w.cell.None? || Descends(v.tree, w.cell.value.tree)
  {
    var log', n := w.log + [v], |w.log| - 1;
    if w.log != [] {
      assert log'[n] == w.log[n] && log'[n + 1] == v;
      if Descends(v.tree, w.log[n].tree) {
        forall i | 0 <= i < |w.log|
          ensures Descends(v.tree, w.log[i].tree) && w.log[i].stamp < v.stamp
        {
          if i < n { PrefixTransitive(w.log[i].tree, w.log[n].tree, v.tree); }
        }
      }
    }
  }

  /** One step keeps the versions a chain if and only if it does not overwrite: wherever an
      unraced guard had something to compare, letting the upload through was right. */
  lemma ChainAfterIff(w: World, tainted: set<HostId>, step: Step)
    requires TruthfulBut(w, tainted) && Chain(w.log)
    ensures Chain(Do(w, step).log) <==> !Overwrites(w, tainted, step)
  {
    var host := At(w, step.h);
    if Uploads(w, step) {
      assert step.h !in tainted ==> HostTruthful(w, host);
      ChainAfterUpload(w, NextVersion(w.cell, host, step.gap));
    }
  }

  lemma {:induction false} LogGrows(w: World, steps: seq<Step>)
    ensures w.log <= Run(w, steps).log
    decreases |steps|
  {
    if steps != [] {
      LogGrows(Do(w, steps[0]), steps[1..]);
    }
  }

  lemma BrokenStaysBroken(log: seq<Version>, longer: seq<Version>)
    requires log <= longer && Chain(longer)
    ensures Chain(log)
  {
    assert forall i :: 0 <= i < |log| ==> log[i] == longer[i];
  }

  lemma {:induction false} HistoryIsLinearIff(w: World, tainted: set<HostId>, steps: seq<Step>)
    requires TruthfulBut(w, tainted) && Chain(w.log)
    ensures Chain(Run(w, steps).log) <==> NeverOverwrites(w, tainted, steps)
    decreases |steps|
  {
    if steps != [] {
      var w' := Do(w, steps[0]);
      StepKeepsTruthful(w, tainted, steps[0]);
      ChainAfterIff(w, tainted, steps[0]);
      if Overwrites(w, tainted, steps[0]) {
        LogGrows(w', steps[1..]);
        if Chain(Run(w, steps).log) { BrokenStaysBroken(w'.log, Run(w, steps).log); }
      } else {
        HistoryIsLinearIff(w', Taint(w, tainted, steps[0]), steps[1..]);
      }
    }
  }

  /** From a session's creation on, over separate steps of any number of hosts interleaved in
      any way: the versions form one chain if and only if no upload overwrites. */
  lemma EveryInterleavingIsLinearIff(creator: HostId, steps: seq<Step>)
    ensures Chain(Run(Initial(creator), steps).log) <==> NeverOverwrites(Initial(creator), {}, steps)
  {
    InitialIsTruthful(creator);
    HistoryIsLinearIff(Initial(creator), {}, steps);
  }

  /** As long as uploads keep out of others' windows nobody is ever tainted. */
  lemma {:induction false} ExclusiveRunsTaintNobody(w: World, steps: seq<Step>)
    requires Truthful(w) && Exclusively(w, steps)
    ensures Truthful(Run(w, steps))
    decreases |steps|
  {
    if steps != [] {
      StepKeepsTruthful(w, {}, steps[0]);
      assert Taint(w, {}, steps[0]) == {};
      ExclusiveRunsTaintNobody(Do(w, steps[0]), steps[1..]);
    }
  }

  lemma InitialIsTruthful(creator: HostId)
    ensures Truthful(Initial(creator)) && Chain(Initial(creator).log)
  {
  }

  lemma GuardMeansUpToDate(w: World, host: Host)
    requires Timely(w) && StampTruthful(w, host) && NotAhead(w.cell, host.sync)
    requires host.known && host.tree.Some?
    ensures !Newer(w.cell, host.sync) && (host.sync.Some? || w.cell.None?) ==> UpToDate(w, host)
  {
  }

  /** Guard, upload, read-back and record as one step. */
  function Merged(cell: Option<Version>, host: Host, readable: bool, gap: nat): (Option<Version>, Host) {
    if Refuses(cell, host.sync, readable) || host.tree.None? then (cell, host)
    else
      var v := NextVersion(cell, host, gap);
      (Some(v), host.(sync := Some(v.stamp)))
  }

  /** An operation nobody interrupts is that one step. */
  lemma UninterruptedIsMerged(w: World, h: HostId, readable: bool, gap: nat)
    requires At(w, h).known && At(w, h).op.Idle?
    ensures var w' := Do(Do(Do(Do(w, Head(h, readable)), Upload(h, gap, true)), Observe(h)), Record(h));
      (w'.cell, At(w', h)) == Merged(w.cell, At(w, h), readable, gap)
  {
  }

  // ---------------------------------------------------------------- how it can go wrong

  /** A state with one uploaded version that both hosts hold and have edited since. */
  const Forked := World(0, Some(Version([1], 1, None)),
                        map[0 := Host(true, Some(1), Some([1, 2]), Idle), 1 := Host(true, Some(1), Some([1, 3]), Idle)],
                        [Version([1], 1, None)])

  const BothPassed := World(0, Some(Version([1], 1, None)),
                            map[0 := Host(true, Some(1), Some([1, 2]), Cleared(true)),
                                1 := Host(true, Some(1), Some([1, 3]), Cleared(true))],
                            [Version([1], 1, None)])

  lemma BothPass()
    ensures Do(Do(Forked, Head(0, true)), Head(1, true)) == BothPassed
  {
    assert Do(Do(Forked, Head(0, true)), Head(1, true)).hosts == BothPassed.hosts;
  }

  const OneUploaded := World(0, Some(Version([1, 2], 2, Some(1))),
                             map[0 := Host(true, Some(1), Some([1, 2]), Uploaded),
                                 1 := Host(true, Some(1), Some([1, 3]), Cleared(true))],
                             [Version([1], 1, None), Version([1, 2], 2, Some(1))])

  lemma OneUploads()
    ensures Do(BothPassed, Upload(0, 0, true)) == OneUploaded
    ensures Taint(BothPassed, {}, Upload(0, 0, true)) == {1}
  {
    var v := Version([1, 2], 2, Some(1));
    assert [Version([1], 1, None)] + [v] == [Version([1], 1, None), v];
    assert Do(BothPassed, Upload(0, 0, true)).hosts == OneUploaded.hosts;
    assert Raced(BothPassed, Upload(0, 0, true)) == {1};
  }

  /** The guard and the upload are not atomic: both hosts pass the guard, each with a
      timestamp and an answer; the first upload races with the second, which overwrites it. */
  lemma GuardRaceLosesAnUpload()
    ensures Do(Do(Do(Forked, Head(0, true)), Head(1, true)), Upload(0, 0, true)) == OneUploaded
    ensures Truthful(Forked) && Overwrites(OneUploaded, {1}, Upload(1, 0, true))
    ensures Do(OneUploaded, Upload(1, 0, true)).log
            == [Version([1], 1, None), Version([1, 2], 2, Some(1)), Version([1, 3], 3, Some(1))]
  {
    BothPass();
    OneUploads();
    assert [1, 2][1] != [1, 3][1];
    assert OneUploaded.log + [Version([1, 3], 3, Some(1))]
      == [Version([1], 1, None), Version([1, 2], 2, Some(1)), Version([1, 3], 3, Some(1))];
  }

  /** The read-back is not atomic either: host 1 extracts version 1, host 0 uploads version 2,
      and host 1 records version 2's timestamp for version 1's tree; its guard is now blind. */
  lemma ReadBackRaceBlindsTheGuard()
    ensures var extracted := Do(Do(Do(Forked, LoseDisk(1)), ResumeHead(1, true)), Extract(1, Ok));
      var overtaken := Do(Do(extracted, Head(0, true)), Upload(0, 0, true));
      var w := Do(Do(Do(overtaken, Observe(1)), Record(1)), Head(1, true));
      At(w, 1).op == Cleared(true) && At(w, 1).tree.Some? && !UpToDate(w, At(w, 1))
  {
    var extracted := Do(Do(Do(Forked, LoseDisk(1)), ResumeHead(1, true)), Extract(1, Ok));
    var overtaken := Do(Do(extracted, Head(0, true)), Upload(0, 0, true));
    var w := Do(Do(Do(overtaken, Observe(1)), Record(1)), Head(1, true));
    assert At(w, 1) == Host(true, Some(2), Some([1]), Cleared(true));
    assert w.cell.value.tree == [1, 2];
  }

  /** The same two hosts after host 0 has uploaded its edit. */
  const Overtaken := World(0, Some(Version([1, 2], 2, Some(1))),
                           map[0 := Host(true, Some(2), Some([1, 2]), Idle),
                               1 := Host(true, Some(1), Some([1, 3]), Idle)],
                           [Version([1], 1, None), Version([1, 2], 2, Some(1))])

  /** A head request that fails is taken for an absent object: a stale host uploads. */
  lemma UnansweredHeadSkipsTheGuard()
    ensures Truthful(Overtaken) && Overwrites(Do(Overtaken, Head(1, false)), {}, Upload(1, 0, true))
    ensures Do(Overtaken, Head(1, true)) == Overtaken
  {
    assert At(Do(Overtaken, Head(1, false)), 1) == Host(true, Some(1), Some([1, 3]), Cleared(false));
    assert [1, 2][1] != [1, 3][1];
  }

  /** The creator's process dies between its first upload and the record, and meanwhile
      another host restores that version and uploads an edit of it. */
  const DiedRecording := World(0, Some(Version([1, 2], 2, Some(1))),
                               map[0 := Host(true, None, Some([1, 3]), Idle),
                                   1 := Host(true, Some(2), Some([1, 2]), Idle)],
                               [Version([1], 1, None), Version([1, 2], 2, Some(1))])

  lemma DeathBeforeTheRecordSkipsTheGuard()
    ensures Truthful(DiedRecording) && Chain(DiedRecording.log)
    ensures Overwrites(Do(DiedRecording, Head(0, true)), {}, Upload(0, 0, true))
  {
    assert At(Do(DiedRecording, Head(0, true)), 0) == Host(true, None, Some([1, 3]), Cleared(false));
    assert [1, 2][1] != [1, 3][1];
  }
}
