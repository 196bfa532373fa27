/** What each lifecycle call answers: the session it leaves, the GPUs that session holds, and
    what happens to everybody else. */
module LifecycleAnswers {
  import opened Options
  import opened Sessions
  import opened Lifecycle
  import G = GpuAllocator

  predicate Listed(s: Server, id: SessionId, status: Status) {
    id in s.sessions && s.sessions[id].status == status
  }

  /** Everything about every other session is as it was. */
  ghost predicate OthersKept(s: Server, t: Server, id: SessionId) {
    t.limit == s.limit && forall other :: other != id ==> At(t, other) == At(s, other)
  }

  /** Nothing is left of the id but what it had. */
  lemma Pointwise(s: Server, id: SessionId)
    ensures At(s, id).memory == Get(s.sessions, id) && At(s, id).file == Get(s.disk, id)
    ensures At(s, id).gpus == HeldBy(s.held, id) && (At(s, id).building <==> id in s.builds)
  {
  }

  lemma OneCall(s: Server, op: Op)
    requires !op.Cleanup? && !op.Restart? && Admitted(s, op)
    ensures At(Do(s, op), op.id) == Next(At(s, op.id), s.held.Keys, op) && OthersKept(s, Do(s, op), op.id)
  {
    forall id ensures At(Do(s, op), id) == if id == op.id then Next(At(s, op.id), s.held.Keys, op) else At(s, id) {
      HeldAfter(s, op, id);
    }
  }

  /** In a sound server a session counts against its owner's limit exactly while it is building
      or active. */
  lemma LiveMeans(s: Server, owner: Option<string>, id: SessionId)
    requires Sound(s)
    ensures id in LiveOf(s, owner) <==>
            id in s.sessions && s.sessions[id].owner == owner && s.sessions[id].status in {Building, Active}
  {
    assert CellOk(At(s, id));
  }

  /** A creation for a fresh id below the limit: the session is listed with what was asked for;
      it is active, with exactly the grant, if and only if every stage succeeds, and failed
      otherwise; a failed one holds and shows GPUs only where no terminal could be launched,
      and its file is erased only when creation itself failed. */
  lemma CreateAnswers(s: Server, op: Op)
    requires op.Create? && Admitted(s, op)
    ensures var t, got := Do(s, op), Acquired(s.held.Keys, op.requested, op.grant);
      && OthersKept(s, t, op.id) && op.id in t.sessions && op.id !in t.builds
      && t.sessions[op.id].requested == op.requested && t.sessions[op.id].owner == op.owner
      && (op.tp.None? ==> t.sessions[op.id].tpSize == op.requested)
      && (op.tp.Some? ==> t.sessions[op.id].tpSize == op.tp.value)
      && (Listed(t, op.id, Active) <==> op.ready && got.Some? && op.launch.Started?)
      && (Listed(t, op.id, Active) || Listed(t, op.id, Failed))
      && (Listed(t, op.id, Active) ==>
            t.sessions[op.id].gpuIds == got.value && HeldBy(t.held, op.id) == G.IdSet(got.value))
      && (Listed(t, op.id, Failed) && !(op.ready && got.Some? && op.launch.NoTtyd?) ==> HeldBy(t.held, op.id) == {})
      && (op.ready && got.Some? && op.launch.NoTtyd? ==> HeldBy(t.held, op.id) == G.IdSet(got.value))
      && (op.id in t.disk <==> !(op.erased && (!op.ready || got.None? || op.launch.Raises?)))
      && (op.id in t.disk ==> t.disk[op.id] == Doc(ToDict(t.sessions[op.id])))
  {
    OneCall(s, op);
    Pointwise(Do(s, op), op.id);
  }

  /** A refused creation changes nothing. */
  lemma RefusedCreateChangesNothing(s: Server, op: Op)
    requires (op.Create? || op.Fork?) && At(s, op.id) == Nothing && |LiveOf(s, op.owner)| >= s.limit
    ensures Do(s, op) == s
  {
  }

  /** A fork session is listed, building and holding exactly its grant, if and only if its
      directories, its GPUs and its task came about; otherwise it is neither listed nor holds
      anything. */
  lemma ForkAnswers(s: Server, op: Op)
    requires op.Fork? && Admitted(s, op)
    ensures var t, got := Do(s, op), Acquired(s.held.Keys, op.requested, op.grant);
      && OthersKept(s, t, op.id)
      && (op.id in t.sessions <==> op.ready && got.Some? && op.spawned)
      && (op.id in t.sessions <==> op.id in t.builds)
      && (op.id in t.sessions ==>
            && t.sessions[op.id] == NewSession(Building, got.value, op.requested, op.tp, op.owner)
            && HeldBy(t.held, op.id) == G.IdSet(got.value) && t.disk[op.id := Doc(ToDict(t.sessions[op.id]))] == t.disk)
      && (op.id !in t.sessions ==> HeldBy(t.held, op.id) == {})
      && (op.id in t.disk <==> op.ready && got.Some?)
  {
    OneCall(s, op);
    Pointwise(Do(s, op), op.id);
    if op.id in Do(s, op).sessions { assert Do(s, op).disk[op.id] == Doc(ToDict(Do(s, op).sessions[op.id])); }
  }

  /** The end of a build makes its session active, with the GPUs it holds, or failed with none;
      either way the build is over and the file says the same. */
  lemma BuildAnswers(s: Server, id: SessionId, ok: bool)
    requires Sound(s) && Listed(s, id, Building)
    ensures var t, was := Do(s, BuildEnds(id, ok)), s.sessions[id];
      && OthersKept(s, t, id) && id in t.sessions && id !in t.builds
      && (ok ==> t.sessions[id] == was.(status := Active) && HeldBy(t.held, id) == HeldBy(s.held, id))
      && (!ok ==> t.sessions[id] == was.(status := Failed, gpuIds := []) && HeldBy(t.held, id) == {})
      && id in t.disk && t.disk[id] == Doc(ToDict(t.sessions[id]))
  {
    OneCall(s, BuildEnds(id, ok));
    Pointwise(Do(s, BuildEnds(id, ok)), id);
    Pointwise(s, id);
    assert CellOk(At(s, id));
    if s.sessions[id].gpuIds == [] { assert G.IdSet(s.sessions[id].gpuIds) == {}; }
  }

  /** A pause makes exactly active sessions paused; they hold nothing afterwards, still show
      what they had, and are saved as paused. */
  lemma PauseAnswers(s: Server, id: SessionId)
    ensures var t := Do(s, Pause(id));
      && (Listed(s, id, Active) ==>
            && OthersKept(s, t, id) && id in t.sessions && t.sessions[id] == s.sessions[id].(status := Paused)
            && HeldBy(t.held, id) == {} && id in t.disk && t.disk[id] == Doc(ToDict(t.sessions[id])))
      && (!Listed(s, id, Active) ==> t == s)
  {
    if Listed(s, id, Active) {
      OneCall(s, Pause(id));
      Pointwise(Do(s, Pause(id)), id);
    } else {
      AtIsStable(s, Pause(id));
    }
  }

  /** A resume makes a paused session active, holding and showing exactly the grant, if and only
      if its worktree is there, its GPUs are granted and its terminal runs; a paused session
      that fails to resume stays paused and, but for a missing terminal, holds and shows
      nothing; anything else is left as it was. */
  lemma ResumeAnswers(s: Server, op: Op)
    requires op.Resume? && Sound(s)
    ensures var t := Do(s, op);
      if !Listed(s, op.id, Paused) || !op.ready then t == s
      else
        var was, got := s.sessions[op.id], Acquired(s.held.Keys, s.sessions[op.id].requested, op.grant);
        && OthersKept(s, t, op.id) && op.id in t.sessions
        && t.sessions[op.id] == was.(status := t.sessions[op.id].status, gpuIds := t.sessions[op.id].gpuIds)
        && (Listed(t, op.id, Active) <==> got.Some? && op.launch.Started?)
        && (Listed(t, op.id, Active) || Listed(t, op.id, Paused))
        && (Listed(t, op.id, Active) ==> HeldBy(t.held, op.id) == G.IdSet(got.value))
        && (Listed(t, op.id, Active) && was.requested > 0 ==> t.sessions[op.id].gpuIds == got.value)
        && (got.None? || op.launch.Raises? || op.launch.Refused? ==>
              HeldBy(t.held, op.id) == {} && t.sessions[op.id].gpuIds == [])
        && op.id in t.disk && t.disk[op.id] == Doc(ToDict(t.sessions[op.id]))
  {
    if !Listed(s, op.id, Paused) || !op.ready {
      AtIsStable(s, op);
    } else {
      OneCall(s, op);
      Pointwise(Do(s, op), op.id);
      Pointwise(s, op.id);
      assert CellOk(At(s, op.id));
    }
  }

  /** A termination leaves no session, no build and no GPUs, and a file that says TERMINATED. */
  lemma TerminateAnswers(s: Server, id: SessionId)
    requires id in s.sessions
    ensures var t := Do(s, Terminate(id));
      && OthersKept(s, t, id) && id !in t.sessions && id !in t.builds && HeldBy(t.held, id) == {}
      && id in t.disk && t.disk[id].Doc? && t.disk[id].saved.status == Terminated
  {
    OneCall(s, Terminate(id));
    Pointwise(Do(s, Terminate(id)), id);
  }

  /** A cleanup takes a session and its file together, exactly when the session is listed, old
      enough, and failed or terminated; nothing else changes, and no GPU changes hands. */
  lemma CleanupAnswers(s: Server, stale: set<SessionId>, id: SessionId)
    ensures var t := Do(s, Cleanup(stale));
      var goes := id in s.sessions && id in stale && (Listed(s, id, Failed) || Listed(s, id, Terminated));
      && (goes ==> id !in t.sessions && id !in t.disk)
      && (!goes ==> Get(t.sessions, id) == Get(s.sessions, id) && Get(t.disk, id) == Get(s.disk, id))
      && t.held == s.held && t.builds == s.builds && t.limit == s.limit
  {
  }
}
