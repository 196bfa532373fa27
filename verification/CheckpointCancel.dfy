/** One host, its uploads, and cancellation at any await: the upload and its bookkeeping run
    as a shielded task that outlives the caller, so once it has drained the recorded
    timestamp is LastModified again and the next guard does not trip on the host's own
    upload. */
module CheckpointCancel {
  import opened Options

  /** The caller: not running, awaiting the guard's head request, or awaiting the task. */
  datatype Caller = Away | AwaitingHead | AwaitingTask

  /** A shielded task between its awaits. */
  datatype Task = Uploading | ReadingBack | HasRead(stamp: nat)

  /** `modified` is LastModified, `sync` is s3_last_sync; `tripped` remembers that the guard
      once refused to upload. */
  datatype HostState = HostState(modified: Option<nat>, sync: Option<nat>, caller: Caller, tasks: seq<Task>,
      tripped: bool)

  const Fresh := HostState(None, None, Away, [], false)

  datatype Step =
    | Begin
    | HeadReturns
    | UploadEnds(task: nat, ok: bool, gap: nat)
    | ReadBack(task: nat)
    | Finish(task: nat)
    | CancelCaller

  function Without(tasks: seq<Task>, i: nat): seq<Task>
    requires i < |tasks|
  {
    tasks[..i] + tasks[i + 1..]
  }

  function Later(modified: Option<nat>, gap: nat): Option<nat> {
    match modified case None => Some(gap) case Some(t) => Some(t + 1 + gap)
  }

  /** A waiting caller waits for the task it started, the newest one. */
  function Awaits(s: HostState, ended: nat): Caller {
    if s.caller.AwaitingTask? && ended == |s.tasks| - 1 then Away else s.caller
  }

  function Do(s: HostState, step: Step, shielded: bool): HostState {
    match step
    case Begin => if s.caller.Away? then s.(caller := AwaitingHead) else s
    case HeadReturns =>
      if !s.caller.AwaitingHead? then s
      else if s.modified.Some? && s.sync.Some? && s.modified.value > s.sync.value
          then s.(caller := Away, tripped := true)
      else s.(caller := AwaitingTask, tasks := s.tasks + [Uploading])
    case UploadEnds(i, ok, gap) =>
      if !(i < |s.tasks| && s.tasks[i].Uploading?) then s
      else if !ok then s.(tasks := Without(s.tasks, i), caller := Awaits(s, i))
      else s.(modified := Later(s.modified, gap), tasks := s.tasks[i := ReadingBack])
    case ReadBack(i) =>
      if i < |s.tasks| && s.tasks[i].ReadingBack? && s.modified.Some?
          then s.(tasks := s.tasks[i := HasRead(s.modified.value)]) else s
    case Finish(i) =>
      if !(i < |s.tasks| && s.tasks[i].HasRead?) then s
      else s.(sync := Some(s.tasks[i].stamp), tasks := Without(s.tasks, i), caller := Awaits(s, i))
    case CancelCaller =>
      // The in-progress flag is cleared by the caller's finally; the task goes on, shielded.
      s.(caller := Away, tasks := if shielded then s.tasks else [])
  }

  function Run(s: HostState, steps: seq<Step>, shielded: bool): HostState
    decreases |steps|
  {
    if steps == [] then s else Run(Do(s, steps[0], shielded), steps[1..], shielded)
  }

  /** A new checkpoint or pause starts only when the previous task has drained. */
  predicate NoOverlap(s: HostState, steps: seq<Step>)
    decreases |steps|
  {
    steps == [] || ((steps[0].Begin? ==> s.tasks == []) && NoOverlap(Do(s, steps[0], true), steps[1..]))
  }

  ghost predicate InStep(s: HostState) {
    && !s.tripped
    && |s.tasks| <= 1
    && (s.caller.AwaitingHead? ==> s.tasks == [])
    && (s.tasks == [] ==> s.sync == s.modified)
    && (s.tasks == [Uploading] ==> s.sync == s.modified)
    && (|s.tasks| == 1 && s.tasks[0].ReadingBack? ==> s.modified.Some?)
    && (|s.tasks| == 1 && s.tasks[0].HasRead? ==> s.modified == Some(s.tasks[0].stamp))
  }

  lemma StepKeepsInStep(s: HostState, step: Step)
    requires InStep(s) && (step.Begin? ==> s.tasks == [])
    ensures InStep(Do(s, step, true))
  {
    if |s.tasks| == 1 {
      assert Without(s.tasks, 0) == [];
    }
    var s' := Do(s, step, true);
    if s'.tasks == [Uploading] && |s.tasks| == 1 && s.tasks[0].Uploading? {
      assert s.tasks == [Uploading];
    }
  }

  /** Cancelled at any await or not: as soon as no task is running, the recorded timestamp is
      LastModified, and the guard has never tripped on the host's own upload. */
  lemma {:induction false} DrainedMeansInSync(s: HostState, steps: seq<Step>)
    requires InStep(s) && NoOverlap(s, steps)
    ensures InStep(Run(s, steps, true))
    ensures Run(s, steps, true).tasks == [] ==> Run(s, steps, true).sync == Run(s, steps, true).modified
    ensures !Run(s, steps, true).tripped
    decreases |steps|
  {
    if steps != [] {
      StepKeepsInStep(s, steps[0]);
      DrainedMeansInSync(Do(s, steps[0], true), steps[1..]);
    }
  }

  /** Without the shield, a cancellation between the upload and the bookkeeping leaves the
      timestamp behind for good: the next guard refuses. */
  lemma UnshieldedCancelTripsTheGuard()
    ensures var s := HostState(Some(1), Some(1), Away, [], false);
      var s1 := Do(Do(Do(s, Begin, false), HeadReturns, false), UploadEnds(0, true, 0), false);
      var s2 := Do(s1, CancelCaller, false);
      InStep(s) && s2.tasks == [] && s2.sync != s2.modified && Do(Do(s2, Begin, false), HeadReturns, false).tripped
  {
    var s := HostState(Some(1), Some(1), Away, [], false);
    assert Do(Do(s, Begin, false), HeadReturns, false).tasks == [Uploading];
  }

  /** Nor does the shield alone help when uploads overlap: the older task's late bookkeeping
      overwrites the newer one's. */
  lemma OverlapLeavesAnOldStamp()
    ensures var s0 := Do(Do(Fresh, Begin, true), HeadReturns, true);
      var s1 := Do(Do(Do(s0, UploadEnds(0, true, 1), true), ReadBack(0), true), CancelCaller, true);
      var s2 := Do(Do(s1, Begin, true), HeadReturns, true);
      var s3 := Do(Do(Do(s2, UploadEnds(1, true, 0), true), ReadBack(1), true), Finish(1), true);
      var s4 := Do(s3, Finish(0), true);
      s4.tasks == [] && s4.sync == Some(1) && s4.modified == Some(2)
  {
    var s0 := Do(Do(Fresh, Begin, true), HeadReturns, true);
    assert s0.tasks == [Uploading];
    var s1 := Do(Do(Do(s0, UploadEnds(0, true, 1), true), ReadBack(0), true), CancelCaller, true);
    assert s1 == HostState(Some(1), None, Away, [HasRead(1)], false);
    var s2 := Do(Do(s1, Begin, true), HeadReturns, true);
    assert s2.tasks == [HasRead(1), Uploading];
    var s3 := Do(Do(s2, UploadEnds(1, true, 0), true), ReadBack(1), true);
    assert s3.tasks == [HasRead(1), HasRead(2)];
    var s4 := Do(s3, Finish(1), true);
    assert s4.tasks == [HasRead(1)];
    assert Do(s4, Finish(0), true).tasks == [];
  }

  // ---------------------------------------------------------------- overlapping uploads

  /** An observer's count: the uploads that have ended; for each task how many had ended when
      it read back, 0 before that; and how many the last task to record had seen. */
  datatype Count = Count(uploads: nat, seen: seq<nat>, last: nat)

  const NoneYet := Count(0, [], 0)

  function Drop(seen: seq<nat>, i: nat): seq<nat> {
    if i < |seen| then seen[..i] + seen[i + 1..] else seen
  }

  function Watch(s: HostState, c: Count, step: Step): Count {
    match step
    case HeadReturns => if |Do(s, step, true).tasks| > |s.tasks| then c.(seen := c.seen + [0]) else c
    case UploadEnds(i, ok, _) =>
      if !(i < |s.tasks| && s.tasks[i].Uploading?) then c
      else if ok then c.(uploads := c.uploads + 1) else c.(seen := Drop(c.seen, i))
    case ReadBack(i) =>
      if i < |s.tasks| && i < |c.seen| && s.tasks[i].ReadingBack? then c.(seen := c.seen[i := c.uploads]) else c
    case Finish(i) =>
      if i < |s.tasks| && i < |c.seen| && s.tasks[i].HasRead? then c.(seen := Drop(c.seen, i), last := c.seen[i]) else c
    case _ => c
  }

  function WatchRun(s: HostState, c: Count, steps: seq<Step>): Count
    decreases |steps|
  {
    if steps == [] then c else WatchRun(Do(s, steps[0], true), Watch(s, c, steps[0]), steps[1..])
  }

  /** A stamp is the current LastModified exactly when it was read after the last upload. */
  ghost predicate StampCounts(s: HostState, c: Count, stamp: nat, seen: nat) {
    && 0 < seen <= c.uploads && s.modified.Some? && stamp <= s.modified.value
    && (stamp == s.modified.value <==> seen == c.uploads)
  }

  ghost predicate TaskCounts(s: HostState, c: Count, t: Task, seen: nat) {
    && (t.ReadingBack? ==> s.modified.Some?)
    && (t.HasRead? ==> StampCounts(s, c, t.stamp, seen))
  }

  ghost predicate Counted(s: HostState, c: Count) {
    && |c.seen| == |s.tasks|
    && (s.modified.None? <==> c.uploads == 0)
    && (forall i :: 0 <= i < |s.tasks| ==> TaskCounts(s, c, s.tasks[i], c.seen[i]))
    && (if s.sync.None? then c.last == 0 else StampCounts(s, c, s.sync.value, c.last))
    && (c.uploads > 0 ==> s.sync.Some? || exists i :: 0 <= i < |s.tasks| && !s.tasks[i].Uploading?)
  }

  lemma SeenKeepsPace(s: HostState, c: Count, step: Step)
    requires |c.seen| == |s.tasks|
    ensures |Watch(s, c, step).seen| == |Do(s, step, true).tasks|
  {
  }

  /** A task that another step leaves alone: where it stood before. */
  function Before(s: HostState, step: Step, i: nat): nat {
    if |Do(s, step, true).tasks| < |s.tasks| && (step.Finish? || step.UploadEnds?) && i >= step.task then i + 1 else i
  }

  lemma TaskStays(s: HostState, c: Count, step: Step, i: nat)
    requires |c.seen| == |s.tasks| && i < |Do(s, step, true).tasks|
    requires step.Finish? || (step.UploadEnds? && |Do(s, step, true).tasks| < |s.tasks|)
    ensures var s', c', j := Do(s, step, true), Watch(s, c, step), Before(s, step, i);
      && j < |s.tasks| && i < |c'.seen| && s'.tasks[i] == s.tasks[j] && c'.seen[i] == c.seen[j]
      && s'.modified == s.modified && c'.uploads == c.uploads
  {
  }

  lemma TaskStaysCounted(s: HostState, c: Count, step: Step, i: nat)
    requires Counted(s, c) && i < |Do(s, step, true).tasks|
    ensures |Watch(s, c, step).seen| == |Do(s, step, true).tasks|
    ensures TaskCounts(Do(s, step, true), Watch(s, c, step), Do(s, step, true).tasks[i], Watch(s, c, step).seen[i])
  {
    SeenKeepsPace(s, c, step);
    if step.Finish? || (step.UploadEnds? && |Do(s, step, true).tasks| < |s.tasks|) {
      TaskStays(s, c, step, i);
      var j := Before(s, step, i);
      assert TaskCounts(s, c, s.tasks[j], c.seen[j]);
    } else if i < |s.tasks| {
      assert TaskCounts(s, c, s.tasks[i], c.seen[i]);
    }
  }

  lemma StampStaysCounted(s: HostState, c: Count, step: Step)
    requires Counted(s, c)
    ensures var s', c' := Do(s, step, true), Watch(s, c, step);
      && |c'.seen| == |s'.tasks| && (s'.modified.None? <==> c'.uploads == 0)
      && (if s'.sync.None? then c'.last == 0 else StampCounts(s', c', s'.sync.value, c'.last))
  {
    if step.Finish? && step.task < |s.tasks| {
      assert TaskCounts(s, c, s.tasks[step.task], c.seen[step.task]);
    }
  }

  lemma StepKeepsCounted(s: HostState, c: Count, step: Step)
    requires Counted(s, c)
    ensures Counted(Do(s, step, true), Watch(s, c, step))
  {
    var s', c' := Do(s, step, true), Watch(s, c, step);
    StampStaysCounted(s, c, step);
    forall i | 0 <= i < |s'.tasks| ensures TaskCounts(s', c', s'.tasks[i], c'.seen[i]) {
      TaskStaysCounted(s, c, step, i);
    }
    if c'.uploads > 0 && s'.sync.None? {
      SomeoneIsReading(s, c, step);
    }
  }

  lemma SomeoneIsReading(s: HostState, c: Count, step: Step)
    requires Counted(s, c) && Watch(s, c, step).uploads > 0 && Do(s, step, true).sync.None?
    ensures var s' := Do(s, step, true); exists i :: 0 <= i < |s'.tasks| && !s'.tasks[i].Uploading?
  {
    var s' := Do(s, step, true);
    if c.uploads == 0 {
      assert !s'.tasks[step.task].Uploading?;
    } else {
      var i :| 0 <= i < |s.tasks| && !s.tasks[i].Uploading?;
      if step.UploadEnds? && step.task < i && s.tasks[step.task].Uploading? && !step.ok {
        assert s'.tasks[i - 1] == s.tasks[i];
      } else {
        assert !s'.tasks[i].Uploading?;
      }
    }
  }

  lemma {:induction false} RunKeepsCounted(s: HostState, c: Count, steps: seq<Step>)
    requires Counted(s, c)
    ensures Counted(Run(s, steps, true), WatchRun(s, c, steps))
    decreases |steps|
  {
    if steps != [] {
      StepKeepsCounted(s, c, steps[0]);
      RunKeepsCounted(Do(s, steps[0], true), Watch(s, c, steps[0]), steps[1..]);
    }
  }

  /** However uploads overlap and calls are cancelled: the recorded timestamp is LastModified
      exactly when the last task to record read back after the last upload; and once drained,
      the next guard refuses the host's own upload exactly when it did not. */
  lemma InSyncIff(steps: seq<Step>)
    ensures var s, c := Run(Fresh, steps, true), WatchRun(Fresh, NoneYet, steps);
      && (s.sync == s.modified <==> c.last == c.uploads)
      && (s.tasks == [] && s.caller.AwaitingHead? && !s.tripped ==>
          (Do(s, HeadReturns, true).tripped <==> c.last != c.uploads))
  {
    RunKeepsCounted(Fresh, NoneYet, steps);
  }
}
