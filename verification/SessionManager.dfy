/** The lifecycle methods as the server performs them: one field after the other, a save to
    disk after each stage, and error handlers that give back what was acquired.  Every method
    is shown to have the net effect that Lifecycle states. */
module SessionManager {
  import opened Options
  import opened Sessions
  import opened Lifecycle
  import G = GpuAllocator

  /** Every GPU of the grant registered to the session. */
  function Granted(held: map<Gpu, SessionId>, id: SessionId, gpus: seq<Gpu>): map<Gpu, SessionId> {
    held + map g | g in G.IdSet(gpus) :: id
  }

  class Manager {
    var sessions: map<SessionId, Session>
    var disk: map<SessionId, File>
    var held: map<Gpu, SessionId>
    var builds: set<SessionId>
    const limit: nat

    function View(): Server
      reads this
    {
      Server(sessions, disk, held, builds, limit)
    }

    /** A server process starts: an empty registry, then one trip through the session files. */
    constructor (files: map<SessionId, File>, max: nat)
      ensures View() == FirstBoot(files, max)
    {
      limit := max;
      sessions, disk, held, builds := map[], files, map[], {};
      new;
      Load();
    }

    /** Fields of the one state object that the registry refers to are reassigned.  `base` is
        the registry as some earlier point of the same call found it. */
    method Update(id: SessionId, state: Session, ghost base: map<SessionId, Session>)
      requires id in sessions && sessions == base[id := sessions[id]]
      modifies this`sessions
      ensures sessions == base[id := state]
    {
      sessions := sessions[id := state];
    }

    /** Writes to a temporary file and renames it over the old one. */
    method Save(id: SessionId, ghost base: map<SessionId, File>)
      requires id in sessions && disk - {id} == base - {id}
      modifies this`disk
      ensures disk == base[id := Doc(ToDict(sessions[id]))]
      ensures disk - {id} == base - {id}
    {
      disk := disk[id := Doc(ToDict(sessions[id]))];
      assert disk - {id} == base - {id};
      assert disk == (disk - {id})[id := Doc(ToDict(sessions[id]))];
      assert base[id := Doc(ToDict(sessions[id]))] == (base - {id})[id := Doc(ToDict(sessions[id]))];
    }

    method Erase(id: SessionId, ghost base: map<SessionId, File>)
      requires disk - {id} == base - {id}
      modifies this`disk
      ensures disk == base - {id}
    {
      disk := disk - {id};
    }

    method Release(id: SessionId)
      modifies this`held
      ensures held == Without(old(held), id)
    {
      held := map g | g in held && held[g] != id :: held[g];
    }

    /** Nothing to do for no GPUs; otherwise what the allocator hands over, or its error. */
    method Acquire(id: SessionId, requested: nat, grant: Option<seq<Gpu>>) returns (gpus: Option<seq<Gpu>>)
      modifies this`held
      ensures gpus == Acquired(old(held).Keys, requested, grant)
      ensures held == if gpus.Some? then Granted(old(held), id, gpus.value) else old(held)
    {
      if requested == 0 {
        assert Granted(held, id, []) == held;
        return Some([]);
      }
      if grant.None? || !Usable(held.Keys, requested, grant.value) {
        return None;
      }
      held := Granted(held, id, grant.value);
      gpus := grant;
    }

    method LoadOne(id: SessionId)
      requires id in disk
      modifies this`sessions, this`disk
      ensures disk == old(disk)[id := Reloaded(old(disk)[id])]
      ensures sessions == if Revived(old(disk)[id]).Some? then old(sessions)[id := Revived(old(disk)[id]).value]
          else old(sessions)
    {
      if disk[id].Doc? {
        var state := FromDict(disk[id].saved);
        if state.status == Building {
          state := state.(status := Failed, gpuIds := []);
          disk := disk[id := Doc(ToDict(state))];
        } else if state.status !in {Terminated, Failed} {
          if state.status in {Active, Creating} {
            state := state.(status := Paused);
            disk := disk[id := Doc(ToDict(state))];
          }
          sessions := sessions[id := state];
        }
      }
    }

    /** One trip through the session directories, in whatever order they are listed. */
    method Load()
      modifies this`sessions, this`disk
      ensures sessions == old(sessions) + RevivedSome(old(disk), old(disk).Keys)
      ensures disk == ReloadedSome(old(disk), old(disk).Keys)
    {
      ghost var files, had := disk, sessions;
      var todo := disk.Keys;
      ghost var done: set<SessionId> := {};
      assert ReloadedSome(files, done) == files;
      assert had + RevivedSome(files, done) == had;
      while todo != {}
        invariant todo + done == files.Keys && todo !! done
        invariant disk == ReloadedSome(files, done)
        invariant sessions == had + RevivedSome(files, done)
      {
        var id :| id in todo;
        todo := todo - {id};
        OneMoreFile(files, had, done, id);
        LoadOne(id);
        done := done + {id};
      }
      assert done == files.Keys;
    }

    method ActiveCount(owner: Option<string>) returns (n: nat)
      ensures n == |LiveOf(View(), owner)|
    {
      var todo := sessions.Keys;
      ghost var seen: set<SessionId> := {};
      n := 0;
      while todo != {}
        invariant todo <= sessions.Keys
        invariant seen == set id | id in LiveOf(View(), owner) && id !in todo
        invariant n == |seen|
      {
        var id :| id in todo;
        todo := todo - {id};
        if sessions[id].owner == owner && sessions[id].status !in {Terminated, Failed, Paused} {
          n := n + 1;
          seen := seen + {id};
        }
      }
      assert seen == LiveOf(View(), owner);
    }

    /** Launching the terminal and what follows from it: TerminalError gives the GPUs back,
        and anything but a running terminal leaves the session in the status `otherwise`. */
    method StartTerminal(id: SessionId, launch: Launch, otherwise: Status,
                         ghost base: map<SessionId, Session>, ghost files: map<SessionId, File>)
      requires !launch.Raises? && id in sessions && sessions == base[id := sessions[id]] && disk - {id} == files - {id}
      modifies this`sessions, this`disk, this`held
      ensures var was := old(sessions)[id];
              var now := was.(gpuIds := if launch.Refused? then [] else was.gpuIds,
                              status := if launch.Started? then Active else otherwise);
              sessions == base[id := now] && disk == files[id := Doc(ToDict(now))]
      ensures held == if launch.Refused? && old(sessions)[id].gpuIds != [] then Without(old(held), id) else old(held)
    {
      var state := sessions[id];
      if launch.Refused? && state.gpuIds != [] {
        Release(id);
        state := state.(gpuIds := []);
      }
      state := state.(status := if launch.Started? then Active else otherwise);
      Update(id, state, base);
      Save(id, files);
    }

    /** The handler around all of create_session. */
    method GiveUpCreating(id: SessionId, erased: bool, ghost base: map<SessionId, Session>,
        ghost files: map<SessionId, File>)
      requires id in sessions && sessions == base[id := sessions[id]] && disk - {id} == files - {id}
      modifies this`sessions, this`disk, this`held
      ensures var now := old(sessions)[id].(status := Failed);
              sessions == base[id := now] && disk == With(files, id, if erased then None else FileOf(now))
      ensures held == Without(old(held), id)
    {
      Update(id, sessions[id].(status := Failed), base);
      Save(id, files);
      Release(id);
      if erased {
        Erase(id, files);
      }
    }

    /** The GPUs of a session that has none, unless an earlier stage failed. */
    method AcquireFirst(id: SessionId, ready: bool, requested: nat, grant: Option<seq<Gpu>>)
        returns (got: Option<seq<Gpu>>)
      requires Without(held, id) == held
      modifies this`held
      ensures got == if ready then Acquired(old(held).Keys, requested, grant) else None
      ensures held == Hand(old(held), id, if got.Some? then G.IdSet(got.value) else {})
      ensures Without(held, id) == old(held) == Hand(old(held), id, {})
    {
      ghost var before := held;
      got := None;
      if ready {
        got := Acquire(id, requested, grant);
      }
      ReleaseAfterGrant(before, id, if got.Some? then got.value else []);
      ReleaseAfterGrant(before, id, []);
      assert G.IdSet([]) == {};
    }

    /** Everything create_session does after admitting the request. */
    method SetUp(op: Op) returns (ok: bool)
      requires op.Create? && op.id !in sessions && op.id !in disk && Without(held, op.id) == held
      modifies this`sessions, this`disk, this`held
      ensures var c := Created(old(held).Keys, op);
        && c.memory.Some? && sessions == old(sessions)[op.id := c.memory.value]
        && disk == With(old(disk), op.id, c.file)
        && held == Hand(old(held), op.id, c.gpus)
        && (ok ==> c.memory.value.status in {Active, Failed}) && (!ok ==> c.memory.value.status == Failed)
    {
      ghost var registry, files := sessions, disk;
      var id := op.id;
      sessions := sessions[id := NewSession(Creating, [], op.requested, op.tp, op.owner)];
      var got := AcquireFirst(id, op.ready, op.requested, op.grant);
      if got.Some? {
        Update(id, sessions[id].(gpuIds := got.value), registry);
        Save(id, files);
        if !op.launch.Raises? {
          StartTerminal(id, op.launch, Failed, registry, files);
          return true;
        }
      }
      GiveUpCreating(id, op.erased, registry, files);
      ok := false;
    }

    method CreateSession(op: Op) returns (ok: bool)
      requires op.Create? && At(View(), op.id) == Nothing
      modifies this
      ensures View() == Do(old(View()), op)
      ensures ok ==> op.id in sessions && sessions[op.id].status in {Active, Failed}
      ensures !ok && op.id in sessions ==> sessions[op.id].status == Failed
    {
      NothingHeld(View(), op.id);
      DoFresh(View(), op, Created(held.Keys, op));
      var active := ActiveCount(op.owner);
      if active >= limit {
        return false;
      }
      ok := SetUp(op);
    }

    /** The fork branch of create_session: the session directories, the GPUs, the build task. */
    method SetUpFork(op: Op) returns (ok: bool)
      requires op.Fork? && op.id !in sessions && op.id !in disk && op.id !in builds && Without(held, op.id) == held
      modifies this
      ensures var c := Forked(old(held).Keys, op);
        && sessions == With(old(sessions), op.id, c.memory) && disk == With(old(disk), op.id, c.file)
        && held == Hand(old(held), op.id, c.gpus)
        && builds == (if c.building then old(builds) + {op.id} else old(builds)) && ok == c.building
    {
      ghost var registry, files := sessions, disk;
      var id := op.id;
      sessions := sessions[id := NewSession(Creating, [], op.requested, op.tp, op.owner)];
      Update(id, sessions[id].(status := Building), registry);
      var got := AcquireFirst(id, op.ready, op.requested, op.grant);
      if got.Some? {
        Update(id, sessions[id].(gpuIds := got.value), registry);
        Save(id, files);
        if op.spawned {
          builds := builds + {id};
          return true;
        }
      }
      if sessions[id].gpuIds != [] {
        Release(id);
      }
      sessions := sessions - {id};
      ok := false;
    }

    method CreateForkSession(op: Op) returns (ok: bool)
      requires op.Fork? && At(View(), op.id) == Nothing
      modifies this
      ensures View() == Do(old(View()), op)
      ensures ok <==> op.id in sessions
    {
      NothingHeld(View(), op.id);
      DoFresh(View(), op, Forked(held.Keys, op));
      var active := ActiveCount(op.owner);
      if active >= limit {
        return false;
      }
      ok := SetUpFork(op);
    }

    /** _fail_build, on the state object the build task holds. */
    method FailBuild(id: SessionId, ghost base: map<SessionId, Session>, ghost files: map<SessionId, File>)
      requires id in sessions && sessions == base[id := sessions[id]] && disk - {id} == files - {id}
      modifies this`sessions, this`disk, this`held
      ensures var now := old(sessions)[id].(status := Failed, gpuIds := []);
              sessions == base[id := now] && disk == files[id := Doc(ToDict(now))]
      ensures disk - {id} == files - {id}
      ensures held == if old(sessions)[id].gpuIds != [] then Without(old(held), id) else old(held)
    {
      Update(id, sessions[id].(status := Failed), base);
      if sessions[id].gpuIds != [] {
        Release(id);
        Update(id, sessions[id].(gpuIds := []), base);
      }
      Save(id, files);
    }

    /** The end of the background build, one way or the other. */
    method BuildDone(id: SessionId, ok: bool)
      modifies this
      ensures View() == Do(old(View()), BuildEnds(id, ok))
    {
      ghost var s := View();
      DoFields(s, BuildEnds(id, ok));
      HandBack(s.held, id);
      if id in builds {
        builds := builds - {id};
        if id in sessions {
          if !ok {
            FailBuild(id, sessions, disk);
          } else if sessions[id].status != Terminated {
            Update(id, sessions[id].(status := Active), sessions);
            Save(id, disk);
          }
        }
      }
    }

    method PauseSession(id: SessionId) returns (ok: bool)
      modifies this
      ensures View() == Do(old(View()), Pause(id))
      ensures ok <==> id in old(sessions) && old(sessions)[id].status == Active
    {
      ghost var s := View();
      DoFields(s, Pause(id));
      HandBack(s.held, id);
      if id !in sessions || sessions[id].status != Active {
        return false;
      }
      Release(id);
      Update(id, sessions[id].(status := Paused), sessions);
      Save(id, disk);
      ok := true;
    }

    /** resume_session from the moment it acquires GPUs, with its handler. */
    method Reopen(op: Op) returns (ok: bool)
      requires op.Resume? && op.id in sessions && sessions[op.id].status == Paused && op.ready
      modifies this`sessions, this`disk, this`held
      ensures var c := Resumed(At(old(View()), op.id), old(held).Keys, op);
        && c.memory.Some? && sessions == old(sessions)[op.id := c.memory.value]
        && disk == old(disk)[op.id := Doc(ToDict(c.memory.value))]
        && held == Hand(old(held), op.id, c.gpus)
    {
      ghost var registry, files, locks := sessions, disk, held;
      var id := op.id;
      HandBack(locks, id);
      assert HeldBy(locks, id) + G.IdSet([]) == HeldBy(locks, id);
      var got := Acquire(id, sessions[id].requested, op.grant);
      GrantOnTop(locks, id, if got.Some? then got.value else []);
      if got.Some? {
        if sessions[id].requested > 0 {
          Update(id, sessions[id].(gpuIds := got.value), registry);
        }
        if !op.launch.Raises? {
          StartTerminal(id, op.launch, Paused, registry, files);
          return true;
        }
      }
      Release(id);
      Update(id, sessions[id].(gpuIds := []), registry);
      Update(id, sessions[id].(status := Paused), registry);
      Save(id, files);
      ok := false;
    }

    method ResumeSession(op: Op) returns (ok: bool)
      requires op.Resume?
      modifies this
      ensures View() == Do(old(View()), op)
      ensures ok ==> op.id in sessions && sessions[op.id].status in {Active, Paused}
    {
      ghost var s := View();
      if op.id !in sessions || sessions[op.id].status !in {Paused, Active} {
        AtIsStable(s, op);
        return false;
      }
      if sessions[op.id].status == Active {
        AtIsStable(s, op);
        return true;
      }
      if !op.ready {
        AtIsStable(s, op);
        return false;
      }
      DoReopened(s, op);
      ok := Reopen(op);
    }

    /** Cancels a build under way, which fails it, and releases what is held. */
    method StopAndRelease(id: SessionId)
      requires id in sessions
      modifies this
      ensures builds == old(builds) - {id}
      ensures sessions == old(sessions)[id := if id in old(builds)
          then old(sessions)[id].(status := Failed, gpuIds := []) else old(sessions)[id]]
      ensures disk - {id} == old(disk) - {id}
      ensures held == Without(old(held), id)
    {
      if id in builds {
        builds := builds - {id};
        FailBuild(id, sessions, disk);
      }
      Release(id);
    }

    /** The files are removed before the last save leaves a tombstone, and only then is the
        session forgotten. */
    method TerminateSession(id: SessionId) returns (ok: bool)
      modifies this
      ensures View() == Do(old(View()), Terminate(id))
      ensures ok <==> id in old(sessions)
    {
      ghost var s := View();
      HandBack(s.held, id);
      if id !in sessions {
        AtIsStable(s, Terminate(id));
        return false;
      }
      DoFields(s, Terminate(id));
      StopAndRelease(id);
      Erase(id, s.disk);
      Update(id, sessions[id].(status := Terminated), s.sessions);
      Save(id, s.disk);
      sessions := sessions - {id};
      assert sessions == s.sessions - {id};
      ok := true;
    }

    /** Removes a session's directory and forgets the session. */
    method Forget(id: SessionId, ghost base: Server, ghost gone: set<SessionId>)
      requires View() == Forgotten(base, gone)
      modifies this`sessions, this`disk
      ensures View() == Forgotten(base, gone + {id})
    {
      disk := disk - {id};
      sessions := sessions - {id};
      assert disk == base.disk - (gone + {id});
      assert sessions == base.sessions - (gone + {id});
    }

    /** Sessions of `stale` are old enough, and their directories can be removed.  How many
        went is only logged. */
    method CleanupOldSessions(stale: set<SessionId>)
      modifies this`sessions, this`disk
      ensures View() == CleanedUp(old(View()), stale)
    {
      ghost var s := View();
      var todo := sessions.Keys;
      ghost var gone: set<SessionId> := {};
      NothingForgotten(s);
      while todo != {}
        invariant todo <= s.sessions.Keys
        invariant gone == Sweepable(s, stale) - todo
        invariant View() == Forgotten(s, gone)
      {
        var id :| id in todo;
        StillThere(s, gone, id);
        OneLessToSweep(s, stale, todo, id);
        todo := todo - {id};
        if sessions[id].status in {Terminated, Failed} && id in stale {
          Forget(id, s, gone);
          gone := gone + {id};
        }
      }
    }
  }

  lemma StillThere(s: Server, gone: set<SessionId>, id: SessionId)
    requires id in s.sessions && id !in gone
    ensures id in Forgotten(s, gone).sessions && Forgotten(s, gone).sessions[id] == s.sessions[id]
  {
  }

  lemma OneLessToSweep(s: Server, stale: set<SessionId>, todo: set<SessionId>, id: SessionId)
    requires id in todo && id in s.sessions
    ensures var gone := Sweepable(s, stale) - todo;
      && id !in gone
      && Sweepable(s, stale) - (todo - {id}) ==
         if s.sessions[id].status in {Terminated, Failed} && id in stale then gone + {id} else gone
  {
  }

  lemma NothingForgotten(s: Server)
    ensures Forgotten(s, {}) == s
  {
    assert s.sessions - {} == s.sessions && s.disk - {} == s.disk;
  }

  /** A further grant comes on top of what the session holds, and one release drops both. */
  lemma GrantOnTop(held: map<Gpu, SessionId>, id: SessionId, gpus: seq<Gpu>)
    requires forall i :: 0 <= i < |gpus| ==> gpus[i] !in held
    ensures Granted(held, id, gpus) == Hand(held, id, HeldBy(held, id) + G.IdSet(gpus))
    ensures Without(Granted(held, id, gpus), id) == Without(held, id)
    ensures Granted(held, id, []) == held
  {
    var both := Granted(held, id, gpus);
    assert Without(both, id) == Without(held, id) by {
      forall g | g in G.IdSet(gpus) ensures g !in held && g !in Without(both, id) {
      }
    }
    assert both.Keys == Hand(held, id, HeldBy(held, id) + G.IdSet(gpus)).Keys;
  }

  lemma OneMoreFile(files: map<SessionId, File>, had: map<SessionId, Session>, done: set<SessionId>, id: SessionId)
    requires id in files && id !in done
    ensures ReloadedSome(files, done)[id] == files[id]
    ensures ReloadedSome(files, done)[id := Reloaded(files[id])] == ReloadedSome(files, done + {id})
    ensures had + RevivedSome(files, done + {id}) ==
            var sofar := had + RevivedSome(files, done);
            if Revived(files[id]).Some? then sofar[id := Revived(files[id]).value] else sofar
  {
    assert ReloadedSome(files, done + {id}) == ReloadedSome(files, done)[id := Reloaded(files[id])];
    var more := RevivedSome(files, done + {id});
    assert more == if Revived(files[id]).Some? then RevivedSome(files, done)[id := Revived(files[id]).value]
        else RevivedSome(files, done);
  }

  /** What an operation on one session amounts to, field by field. */
  lemma DoFields(s: Server, op: Op)
    requires !op.Cleanup? && !op.Restart? && Admitted(s, op)
    ensures var c := Next(At(s, op.id), s.held.Keys, op);
      Do(s, op) == Server(With(s.sessions, op.id, c.memory), With(s.disk, op.id, c.file), Hand(s.held, op.id, c.gpus),
                          if c.building then s.builds + {op.id} else s.builds - {op.id}, s.limit)
  {
  }

  /** What resuming a paused session with its worktree in place amounts to. */
  lemma DoReopened(s: Server, op: Op)
    requires op.Resume? && op.id in s.sessions && s.sessions[op.id].status == Paused && op.ready
    ensures var c := Resumed(At(s, op.id), s.held.Keys, op);
      && c.memory.Some? && c.file == FileOf(c.memory.value) && c.memory.value.status in {Active, Paused}
      && Do(s, op) == Server(s.sessions[op.id := c.memory.value], s.disk[op.id := Doc(ToDict(c.memory.value))],
                             Hand(s.held, op.id, c.gpus), s.builds, s.limit)
  {
    DoFields(s, op);
    if op.id in s.builds { assert s.builds + {op.id} == s.builds; } else { assert s.builds - {op.id} == s.builds; }
  }

  /** What storing a fresh session amounts to. */
  lemma DoFresh(s: Server, op: Op, c: Cell)
    requires (op.Create? || op.Fork?) && At(s, op.id) == Nothing
    requires c == Next(At(s, op.id), s.held.Keys, op)
    ensures Do(s, op) ==
            if |LiveOf(s, op.owner)| >= s.limit then s
            else Server(With(s.sessions, op.id, c.memory), With(s.disk, op.id, c.file), Hand(s.held, op.id, c.gpus),
                        if c.building then s.builds + {op.id} else s.builds, s.limit)
  {
    NothingHeld(s, op.id);
  }

  /** Handing a session what it holds changes nothing; handing it nothing is a release. */
  lemma HandBack(held: map<Gpu, SessionId>, id: SessionId)
    ensures Hand(held, id, HeldBy(held, id)) == held
    ensures Hand(held, id, {}) == Without(held, id)
  {
  }

  lemma NothingHeld(s: Server, id: SessionId)
    requires At(s, id) == Nothing
    ensures id !in s.sessions && id !in s.disk && id !in s.builds && Without(s.held, id) == s.held
  {
    assert At(s, id).memory == None && At(s, id).file == None;
    forall g | g in s.held ensures s.held[g] != id {
      assert g !in HeldBy(s.held, id);
    }
  }

  /** Granting and releasing again is harmless to everybody else. */
  lemma ReleaseAfterGrant(held: map<Gpu, SessionId>, id: SessionId, gpus: seq<Gpu>)
    requires Without(held, id) == held && forall i :: 0 <= i < |gpus| ==> gpus[i] !in held
    ensures Without(Granted(held, id, gpus), id) == held
    ensures Granted(held, id, []) == held
    ensures Granted(held, id, gpus) == Hand(held, id, G.IdSet(gpus))
  {
  }
}
