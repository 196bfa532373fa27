/** GPU allocation by file locks: the registry of GPUResourceManager, the coroutine that
    acquires GPUs in passes, and every interleaving of those passes with other sessions,
    releases, time-outs, cancellations and other processes locking the same files. */
module GpuAllocator {
  import opened GpuLocks

  type SessionId = string

  /** A registry key; the entry's value is the descriptor that holds the lock. */
  datatype Key = Key(session: SessionId, gpu: Gpu)

  /** What all sessions share: the lock files and the allocation registry. */
  datatype Shared = Shared(locks: LockTable, registry: map<Key, nat>)

  datatype Taken = Taken(gpu: Gpu, fd: nat)

  /** The local variables of one acquire coroutine: what it has taken so far. */
  datatype Call = Call(session: SessionId, want: int, taken: seq<Taken>)

  function TakenGpus(c: Call): (gpus: seq<Gpu>)
    ensures |gpus| == |c.taken|
  {
    seq(|c.taken|, i requires 0 <= i < |c.taken| => c.taken[i].gpu)
  }

  function TakenFds(c: Call): set<nat> {
    set t | t in c.taken :: t.fd
  }

  function TakenKeys(c: Call): set<Key> {
    set t | t in c.taken :: Key(c.session, t.gpu)
  }

  function Registered(r: Shared): set<Gpu> {
    set k | k in r.registry :: k.gpu
  }

  // ---------------------------------------------------------------- atomic effects

  /** One trip through the for loop: open the file, try the lock, register or close. */
  function Attempt(r: Shared, c: Call, g: Gpu): (Shared, Call) {
    var fd, table := r.locks.next, Open(r.locks, g);
    if Blocked(table, g) then
      (r.(locks := Close(table, fd)), c)
    else
      (Shared(Lock(table, g, fd), r.registry[Key(c.session, g) := fd]), c.(taken := c.taken + [Taken(g, fd)]))
  }

  /** One pass over the GPU ids, stopping as soon as the call has enough. */
  function PassOver(r: Shared, c: Call, ids: seq<Gpu>): (Shared, Call)
    decreases |ids|
  {
    if ids == [] || |c.taken| >= c.want then (r, c)
    else if ids[0] in TakenGpus(c) then PassOver(r, c, ids[1..])
    else var (r', c') := Attempt(r, c, ids[0]); PassOver(r', c', ids[1..])
  }

  /** The files that lose their last reference when the call's keys are popped: an entry
      refers to its lock file, and so does the local list of a call that is still suspended.
      `elsewhere` are the descriptors in the lists of the other suspended calls. */
  function Orphans(r: Shared, c: Call, elsewhere: set<nat>): set<nat> {
    set k | k in TakenKeys(c) && k in r.registry && r.registry[k] !in elsewhere :: r.registry[k]
  }

  /** Rollback: deregister this session's key of every GPU taken, close every descriptor; a
      file nobody refers to any more is closed with its entry. */
  function RolledBack(r: Shared, c: Call, elsewhere: set<nat>): Shared {
    Shared(CloseAll(r.locks, TakenFds(c) + Orphans(r, c, elsewhere)), r.registry - TakenKeys(c))
  }

  /** A call that ends without rolling back drops its list, and with it the files that nothing
      else refers to. */
  function Forgotten(r: Shared, c: Call, elsewhere: set<nat>): Shared {
    r.(locks := CloseAll(r.locks, TakenFds(c) - elsewhere - r.registry.Values))
  }

  function KeysOf(r: Shared, session: SessionId): set<Key> {
    set k | k in r.registry && k.session == session
  }

  /** Some entries and their locks gone. */
  function ReleasedKeys(r: Shared, keys: set<Key>): Shared {
    Shared(CloseAll(r.locks, FdsOf(r, keys)), r.registry - keys)
  }

  function FdsOf(r: Shared, keys: set<Key>): set<nat> {
    set k | k in keys && k in r.registry :: r.registry[k]
  }

  function Released(r: Shared, session: SessionId): Shared {
    ReleasedKeys(r, KeysOf(r, session))
  }

  // ---------------------------------------------------------------- the server's own code

  /** The manager as the server runs it between two suspension points. */
  class GpuResourceManager {
    const gpuIds: seq<Gpu>
    var locks: LockTable
    var allocations: map<Key, nat>

    constructor (ids: seq<Gpu>, existing: LockTable)
      ensures gpuIds == ids && View() == Shared(existing, map[])
    {
      gpuIds := ids;
      locks := existing;
      allocations := map[];
    }

    function View(): Shared
      reads this
    {
      Shared(locks, allocations)
    }

    method Register(session: SessionId, g: Gpu, fd: nat)
      modifies this`allocations
      ensures allocations == old(allocations)[Key(session, g) := fd]
    {
      allocations := allocations[Key(session, g) := fd];
    }

    /** Pops the key; its file is closed unless some suspended call's list refers to it.  The
        caller's own list does, but the caller closes its files next. */
    method Deregister(session: SessionId, g: Gpu, elsewhere: set<nat>)
      modifies this
      ensures allocations == old(allocations) - {Key(session, g)}
      ensures locks == if Key(session, g) in old(allocations) && old(allocations)[Key(session, g)] !in elsewhere
                       then Close(old(locks), old(allocations)[Key(session, g)]) else old(locks)
    {
      var key := Key(session, g);
      if key in allocations {
        var fd := allocations[key];
        allocations := allocations - {key};
        if fd !in elsewhere {
          locks := Close(locks, fd);
        }
      }
    }

    method AvailableCount() returns (n: int)
      ensures n == Available(View(), gpuIds)
    {
      var inUse := set k | k in allocations :: k.gpu;
      n := if |gpuIds| - |inUse| > 0 then |gpuIds| - |inUse| else 0;
    }

    /** The for loop of one polling pass: afterwards the call has all it wants, or every GPU
        is on its list or was locked by somebody. */
    method Pass(c: Call) returns (c': Call)
      modifies this
      ensures (View(), c') == PassOver(old(View()), c, gpuIds)
      ensures Consistent(old(locks)) ==> PassTakes(old(View()), c, gpuIds, View(), c')
    {
      PassTakesFree(View(), c, gpuIds);
      c' := c;
      var i := 0;
      while i < |gpuIds|
        invariant 0 <= i <= |gpuIds|
        invariant PassOver(View(), c', gpuIds[i..]) == PassOver(old(View()), c, gpuIds)
      {
        var g := gpuIds[i];
        assert gpuIds[i..][1..] == gpuIds[i + 1..];
        if |c'.taken| >= c'.want {
          break;
        }
        if g !in TakenGpus(c') {
          var fd := locks.next;
          locks := Open(locks, g);
          if Blocked(locks, g) {
            locks := Close(locks, fd);
          } else {
            locks := Lock(locks, g, fd);
            c' := c'.(taken := c'.taken + [Taken(g, fd)]);
            Register(c'.session, g, fd);
          }
        }
        i := i + 1;
      }
    }

    method Rollback(c: Call, elsewhere: set<nat>)
      modifies this
      ensures View() == RolledBack(old(View()), c, elsewhere)
    {
      ghost var r0 := View();
      ghost var done := c.(taken := []);
      CloseAllOfNothing(locks);
      assert TakenFds(done) + Orphans(r0, done, elsewhere) == {} && TakenKeys(done) == {};
      var i := 0;
      while i < |c.taken|
        invariant 0 <= i <= |c.taken| && done == c.(taken := c.taken[..i])
        invariant View() == RolledBack(r0, done, elsewhere)
      {
        OneMoreRolledBack(r0, done, elsewhere, c.taken[i]);
        assert c.taken[..i + 1] == c.taken[..i] + [c.taken[i]];
        Deregister(c.session, c.taken[i].gpu, elsewhere);
        locks := Unlock(locks, c.taken[i].fd);
        locks := Close(locks, c.taken[i].fd);
        i := i + 1;
        done := c.(taken := c.taken[..i]);
      }
      assert c.taken[..i] == c.taken;
    }

    /** The time-out path: the rollback before `raise`, then the one in the handler that
        catches that very exception. */
    method TimeOut(c: Call, elsewhere: set<nat>)
      modifies this
      ensures View() == RolledBack(old(View()), c, elsewhere)
    {
      Rollback(c, elsewhere);
      RollbackTwice(old(View()), c, elsewhere);
      Rollback(c, elsewhere);
    }

    method ReleaseForSession(session: SessionId)
      modifies this
      ensures View() == Released(old(View()), session)
    {
      ghost var r0 := View();
      ghost var done: set<Key> := {};
      var todo := set k | k in allocations && k.session == session;
      NothingReleased(r0);
      while todo != {}
        invariant todo + done == KeysOf(r0, session) && todo !! done
        invariant View() == ReleasedKeys(r0, done)
      {
        var key :| key in todo;
        OneMoreReleased(r0, done, key);
        var fd := allocations[key];
        allocations := allocations - {key};
        locks := Unlock(locks, fd);
        locks := Close(locks, fd);
        todo, done := todo - {key}, done + {key};
      }
      assert done == KeysOf(r0, session);
    }
  }

  lemma NothingReleased(r: Shared)
    ensures ReleasedKeys(r, {}) == r
  {
    CloseAllOfNothing(r.locks);
    assert FdsOf(r, {}) == {};
    assert r.registry - {} == r.registry;
  }

  lemma OneMoreReleased(r: Shared, done: set<Key>, key: Key)
    requires key in r.registry && key !in done
    ensures var now := ReleasedKeys(r, done);
      && key in now.registry && now.registry[key] == r.registry[key]
      && ReleasedKeys(r, done + {key})
         == Shared(Close(Unlock(now.locks, r.registry[key]), r.registry[key]), now.registry - {key})
  {
    var fds, fd := FdsOf(r, done), r.registry[key];
    assert FdsOf(r, done + {key}) == fds + {fd};
    CloseBoth(r.locks, fds, {}, fd);
    assert fds + {} == fds;
    assert r.registry - (done + {key}) == (r.registry - done) - {key};
  }

  lemma CloseAllOfNothing(t: LockTable)
    ensures CloseAll(t, {}) == t
  {
    assert CloseAll(t, {}).owner == t.owner;
  }

  /** One turn of the rollback loop. */
  lemma OneMoreRolledBack(r: Shared, done: Call, elsewhere: set<nat>, t: Taken)
    ensures var now, key := RolledBack(r, done, elsewhere), Key(done.session, t.gpu);
      var popped := if key in now.registry && now.registry[key] !in elsewhere
                    then Close(now.locks, now.registry[key]) else now.locks;
      RolledBack(r, done.(taken := done.taken + [t]), elsewhere)
        == Shared(Close(Unlock(popped, t.fd), t.fd), now.registry - {key})
  {
    var more, key := done.(taken := done.taken + [t]), Key(done.session, t.gpu);
    var fds := TakenFds(done) + Orphans(r, done, elsewhere);
    assert TakenKeys(more) == TakenKeys(done) + {key} by { TakenOneMore(done, t); }
    assert TakenFds(more) == TakenFds(done) + {t.fd} by { TakenOneMore(done, t); }
    var popped := if key in r.registry && r.registry[key] !in elsewhere then {r.registry[key]} else {};
    assert Orphans(r, more, elsewhere) == Orphans(r, done, elsewhere) + popped;
    assert TakenFds(more) + Orphans(r, more, elsewhere) == fds + popped + {t.fd};
    CloseBoth(r.locks, fds, popped, t.fd);
    if popped != {} {
      CloseOneMore(r.locks, fds, r.registry[key]);
    }
    assert key in TakenKeys(done) && popped != {} ==> r.registry[key] in fds;
    assert fds + {} == fds;
    if key in TakenKeys(done) {
      assert fds + popped == fds;
    }
  }

  lemma TakenOneMore(c: Call, t: Taken)
    ensures var more := c.(taken := c.taken + [t]);
      TakenKeys(more) == TakenKeys(c) + {Key(c.session, t.gpu)} && TakenFds(more) == TakenFds(c) + {t.fd}
  {
    assert t in c.taken + [t];
  }

  lemma CloseBoth(t: LockTable, fds: set<nat>, popped: set<nat>, fd: nat)
    ensures Close(Unlock(CloseAll(t, fds + popped), fd), fd) == CloseAll(t, fds + popped + {fd})
  {
    CloseOneMore(t, fds + popped, fd);
    var u := CloseAll(t, fds + popped);
    assert Close(Unlock(u, fd), fd).owner == Close(u, fd).owner;
  }

  /** Rolling back a second time changes nothing: every descriptor is closed and every key
      gone already. */
  lemma RollbackTwice(r: Shared, c: Call, elsewhere: set<nat>)
    ensures RolledBack(RolledBack(r, c, elsewhere), c, elsewhere) == RolledBack(r, c, elsewhere)
  {
    var once := RolledBack(r, c, elsewhere);
    var twice := RolledBack(once, c, elsewhere);
    assert Orphans(once, c, elsewhere) == {};
    assert twice.locks.owner == once.locks.owner;
    assert twice.locks.open == once.locks.open;
    assert twice.registry == once.registry;
  }

  // ---------------------------------------------------------------- the invariant

  /** The registry is exactly the set of locks this server holds, and no GPU appears in two
      entries. */
  ghost predicate Accounted(r: Shared) {
    && (forall k :: k in r.registry ==> k.gpu in r.locks.owner && r.locks.owner[k.gpu] == Mine(r.registry[k]))
    && (forall g :: g in r.locks.owner && r.locks.owner[g].Mine? ==>
          exists k :: k in r.registry && k.gpu == g && r.registry[k] == r.locks.owner[g].fd)
    && (forall k, k' :: k in r.registry && k' in r.registry && k.gpu == k'.gpu ==> k == k')
  }

  /** A suspended call: distinct GPUs, and every descriptor it still has open is registered
      under its own key. */
  ghost predicate CallOk(r: Shared, c: Call) {
    && (|c.taken| > 0 ==> |c.taken| <= c.want)
    && (forall i, j :: 0 <= i < j < |c.taken| ==> c.taken[i].gpu != c.taken[j].gpu)
    && (forall i :: 0 <= i < |c.taken| ==>
          && c.taken[i].fd < r.locks.next
          && (c.taken[i].fd in r.locks.open ==>
                && r.locks.open[c.taken[i].fd] == c.taken[i].gpu
                && Key(c.session, c.taken[i].gpu) in r.registry
                && r.registry[Key(c.session, c.taken[i].gpu)] == c.taken[i].fd))
  }

  /** The descriptors that the suspended calls other than `n` have taken. */
  function Elsewhere(s: System, n: nat): set<nat> {
    set m, t | m in s.calls && m != n && t in s.calls[m].taken :: t.fd
  }

  /** The keys a rollback of `c` would remove still belong to `c`. */
  ghost predicate RollbackSafe(r: Shared, c: Call) {
    forall i :: 0 <= i < |c.taken| && Key(c.session, c.taken[i].gpu) in r.registry ==>
      r.registry[Key(c.session, c.taken[i].gpu)] == c.taken[i].fd
  }

  /** The whole server with its suspended acquire coroutines. */
  datatype System = System(ids: seq<Gpu>, shared: Shared, calls: map<nat, Call>)

  ghost predicate Sound(s: System) {
    && Consistent(s.shared.locks)
    && Accounted(s.shared)
    && (forall n :: n in s.calls ==> CallOk(s.shared, s.calls[n]))
    && Apart(s)
  }

  /** No two suspended calls share a descriptor. */
  ghost predicate Apart(s: System) {
    forall n, m :: n in s.calls && m in s.calls && n != m ==> TakenFds(s.calls[n]) !! TakenFds(s.calls[m])
  }

  /** Everything registered is among the GPUs discovered last. */
  ghost predicate Known(s: System) {
    forall k :: k in s.shared.registry ==> k.gpu in s.ids
  }

  /** No session has two acquires under way, and every pending rollback is safe. */
  ghost predicate OneCallEach(s: System) {
    && (forall n, m :: n in s.calls && m in s.calls && s.calls[n].session == s.calls[m].session ==> n == m)
    && (forall n :: n in s.calls ==> RollbackSafe(s.shared, s.calls[n]))
  }

  // ---------------------------------------------------------------- steps and runs

  datatype Step =
    | Start(n: nat, session: SessionId, want: int)
    | TryGpu(n: nat, gpu: Gpu)
    | Return(n: nat)
    | TimeOut(n: nat)
    | Cancel(n: nat)
    | Release(session: SessionId)
    | OutsideLock(gpu: Gpu, pid: nat)
    | OutsideUnlock(gpu: Gpu)
    | Refresh(found: seq<Gpu>)

  predicate MayTry(s: System, n: nat, g: Gpu) {
    && n in s.calls && g in s.ids
    && |s.calls[n].taken| < s.calls[n].want
    && g !in TakenGpus(s.calls[n])
  }

  /** A call ends and its list is gone. */
  function Ended(s: System, n: nat): System
    requires n in s.calls
  {
    s.(shared := Forgotten(s.shared, s.calls[n], Elsewhere(s, n)), calls := s.calls - {n})
  }

  /** One step; a step that is not possible leaves everything as it is. */
  function Do(s: System, step: Step): System {
    match step
    case Start(n, session, want) =>
      // More GPUs than exist raises ValueError; none at all returns at once.
      if n in s.calls || want > |s.ids| || want == 0 then s
      else s.(calls := s.calls[n := Call(session, want, [])])
    case TryGpu(n, g) =>
      if !MayTry(s, n, g) then s
      else
        var (r, c) := Attempt(s.shared, s.calls[n], g);
        s.(shared := r, calls := s.calls[n := c])
    case Return(n) =>
      // There is no await between the last lock and the return; runs in which something
      // happens there are more than the server has.
      if n in s.calls && |s.calls[n].taken| >= s.calls[n].want then Ended(s, n) else s
    case TimeOut(n) =>
      if n in s.calls && |s.calls[n].taken| < s.calls[n].want
      then s.(shared := RolledBack(s.shared, s.calls[n], Elsewhere(s, n)), calls := s.calls - {n}) else s
    case Cancel(n) =>
      // CancelledError is not an Exception: no handler runs, the locks stay registered.
      if n in s.calls then Ended(s, n) else s
    case Release(session) =>
      s.(shared := Released(s.shared, session))
    case OutsideLock(g, pid) =>
      if Blocked(s.shared.locks, g) then s
      else s.(shared := s.shared.(locks := s.shared.locks.(owner := s.shared.locks.owner[g := Outside(pid)])))
    case OutsideUnlock(g) =>
      if g in s.shared.locks.owner && s.shared.locks.owner[g].Outside?
      then s.(shared := s.shared.(locks := s.shared.locks.(owner := s.shared.locks.owner - {g}))) else s
    case Refresh(found) =>
      // The lock files are listed again, when another client meets an unknown id.
      s.(ids := found)
  }

  function Run(s: System, steps: seq<Step>): System
    decreases |steps|
  {
    if steps == [] then s else Run(Do(s, steps[0]), steps[1..])
  }

  function Initial(ids: seq<Gpu>): System {
    System(ids, Shared(NoLocks, map[]), map[])
  }

  /** The caller's side of the bargain: a session starts an acquire only when it has none
      under way. */
  predicate StartsAlone(s: System, step: Step) {
    step.Start? ==> forall n :: n in s.calls ==> s.calls[n].session != step.session
  }

  predicate Disciplined(s: System, steps: seq<Step>)
    decreases |steps|
  {
    steps == [] || (StartsAlone(s, steps[0]) && Disciplined(Do(s, steps[0]), steps[1..]))
  }

  // ---------------------------------------------------------------- each step keeps it

  lemma BlockedAttempt(r: Shared, c: Call, g: Gpu)
    requires Consistent(r.locks) && Blocked(r.locks, g)
    ensures Attempt(r, c, g) == (r.(locks := r.locks.(next := r.locks.next + 1)), c)
  {
    var after := Attempt(r, c, g).0.locks;
    forall h | h in r.locks.owner
      ensures r.locks.owner[h] != Mine(r.locks.next)
    {
    }
    assert after.owner == r.locks.owner;
    assert after.open == r.locks.open;
  }

  lemma TakingKeepsAccounts(r: Shared, c: Call, g: Gpu)
    requires Consistent(r.locks) && Accounted(r) && !Blocked(r.locks, g)
    ensures var r' := Attempt(r, c, g).0; Consistent(r'.locks) && Accounted(r')
  {
    var r' := Attempt(r, c, g).0;
    assert Key(c.session, g) !in r.registry;
    forall h | h in r'.locks.owner && r'.locks.owner[h].Mine?
      ensures exists k :: k in r'.registry && k.gpu == h && r'.registry[k] == r'.locks.owner[h].fd
    {
      if h == g {
        assert Key(c.session, g) in r'.registry;
      } else {
        var k :| k in r.registry && k.gpu == h && r.registry[k] == r.locks.owner[h].fd;
        assert k in r'.registry;
      }
    }
  }

  lemma AttemptKeepsCalls(r: Shared, c: Call, g: Gpu, other: Call)
    requires Consistent(r.locks) && Accounted(r) && !Blocked(r.locks, g)
    requires CallOk(r, other)
    ensures CallOk(Attempt(r, c, g).0, other)
    ensures RollbackSafe(r, other) && other.session != c.session ==> RollbackSafe(Attempt(r, c, g).0, other)
  {
    assert Key(c.session, g) !in r.registry;
  }

  lemma AttemptKeepsItsCall(r: Shared, c: Call, g: Gpu)
    requires Consistent(r.locks) && Accounted(r) && !Blocked(r.locks, g)
    requires CallOk(r, c) && g !in TakenGpus(c) && |c.taken| < c.want
    ensures var (r', c') := Attempt(r, c, g);
      CallOk(r', c') && (RollbackSafe(r, c) ==> RollbackSafe(r', c'))
  {
    AttemptKeepsCalls(r, c, g, c);
    assert forall i :: 0 <= i < |c.taken| ==> TakenGpus(c)[i] == c.taken[i].gpu;
  }

  lemma AttemptKeepsApart(s: System, n: nat, g: Gpu)
    requires Sound(s) && MayTry(s, n, g) && !Blocked(s.shared.locks, g)
    ensures Apart(Do(s, TryGpu(n, g)))
  {
    var s', fd := Do(s, TryGpu(n, g)), s.shared.locks.next;
    assert TakenFds(s'.calls[n]) <= TakenFds(s.calls[n]) + {fd};
    forall m | m in s.calls ensures fd !in TakenFds(s.calls[m]) {
      assert CallOk(s.shared, s.calls[m]);
    }
  }

  lemma AttemptKeepsSound(s: System, n: nat, g: Gpu)
    requires Sound(s) && MayTry(s, n, g)
    ensures Sound(Do(s, TryGpu(n, g)))
    ensures OneCallEach(s) ==> OneCallEach(Do(s, TryGpu(n, g)))
  {
    if Blocked(s.shared.locks, g) {
      BlockedAttempt(s.shared, s.calls[n], g);
      assert Do(s, TryGpu(n, g)).calls == s.calls;
    } else {
      AttemptKeepsApart(s, n, g);
      TakingKeepsSound(s, n, g);
    }
  }

  lemma TakingKeepsSound(s: System, n: nat, g: Gpu)
    requires Sound(s) && MayTry(s, n, g) && !Blocked(s.shared.locks, g)
    requires Apart(Do(s, TryGpu(n, g)))
    ensures Sound(Do(s, TryGpu(n, g)))
    ensures OneCallEach(s) ==> OneCallEach(Do(s, TryGpu(n, g)))
  {
    var s' := Do(s, TryGpu(n, g));
    var r, c := s.shared, s.calls[n];
    TakingKeepsAccounts(r, c, g);
    AttemptKeepsItsCall(r, c, g);
    forall m | m in s'.calls && m != n
      ensures CallOk(s'.shared, s'.calls[m])
      ensures OneCallEach(s) ==> RollbackSafe(s'.shared, s'.calls[m])
    {
      AttemptKeepsCalls(r, c, g, s.calls[m]);
    }
  }

  /** Closing descriptors and dropping the matching keys keeps the accounts. */
  lemma DropKeepsAccounts(r: Shared, fds: set<nat>, keys: set<Key>, r': Shared)
    requires Consistent(r.locks) && Accounted(r)
    requires r' == Shared(CloseAll(r.locks, fds), r.registry - keys)
    requires forall k :: k in r.registry && r.registry[k] in fds ==> k in keys
    requires forall k :: k in keys && k in r.registry ==> r.registry[k] in fds
    ensures Consistent(r'.locks) && Accounted(r')
  {
    forall g | g in r'.locks.owner && r'.locks.owner[g].Mine?
      ensures exists k :: k in r'.registry && k.gpu == g && r'.registry[k] == r'.locks.owner[g].fd
    {
      var k :| k in r.registry && k.gpu == g && r.registry[k] == r.locks.owner[g].fd;
      assert k in r'.registry;
    }
  }

  lemma ReleaseKeepsAccounts(r: Shared, session: SessionId)
    requires Consistent(r.locks) && Accounted(r)
    ensures Consistent(Released(r, session).locks) && Accounted(Released(r, session))
  {
    var keys := KeysOf(r, session);
    var fds := FdsOf(r, keys);
    forall k | k in r.registry && r.registry[k] in fds ensures k in keys {
      var k' :| k' in keys && r.registry[k'] == r.registry[k];
      assert r.locks.owner[k.gpu] == r.locks.owner[k'.gpu];
      assert k.gpu == k'.gpu;
    }
    DropKeepsAccounts(r, fds, keys, Released(r, session));
  }

  lemma ReleaseKeepsSound(s: System, session: SessionId)
    requires Sound(s)
    ensures Sound(Do(s, Release(session)))
    ensures OneCallEach(s) ==> OneCallEach(Do(s, Release(session)))
  {
    ReleaseKeepsAccounts(s.shared, session);
    forall m | m in s.calls
      ensures CallOk(Released(s.shared, session), s.calls[m])
    {
      ReleaseKeepsCall(s.shared, session, s.calls[m]);
    }
  }

  lemma ReleaseKeepsCall(r: Shared, session: SessionId, c: Call)
    requires Consistent(r.locks) && Accounted(r) && CallOk(r, c)
    ensures CallOk(Released(r, session), c)
  {
    forall i | 0 <= i < |c.taken| && c.taken[i].fd in r.locks.open
      ensures Key(c.session, c.taken[i].gpu) in KeysOf(r, session) <==> c.session == session
    {
    }
  }

  /** Popping `c`'s keys takes no other suspended call's entry. */
  ghost predicate SparesWaiting(r: Shared, c: Call, elsewhere: set<nat>) {
    forall i :: 0 <= i < |c.taken| && Key(c.session, c.taken[i].gpu) in r.registry ==>
      r.registry[Key(c.session, c.taken[i].gpu)] !in elsewhere
  }

  /** The exact condition under which timing out keeps the accounts: none of the keys the
      rollback pops has meanwhile been re-registered by a call that is still suspended.  An
      entry of a call that has returned goes together with its lock. */
  lemma RollbackAccountsIff(r: Shared, c: Call, elsewhere: set<nat>)
    requires Consistent(r.locks) && Accounted(r) && CallOk(r, c) && TakenFds(c) !! elsewhere
    ensures Accounted(RolledBack(r, c, elsewhere)) <==> SparesWaiting(r, c, elsewhere)
  {
    var r' := RolledBack(r, c, elsewhere);
    if SparesWaiting(r, c, elsewhere) {
      RollbackDrops(r, c, elsewhere);
      DropKeepsAccounts(r, TakenFds(c) + Orphans(r, c, elsewhere), TakenKeys(c), r');
    } else {
      var i :| 0 <= i < |c.taken| && Key(c.session, c.taken[i].gpu) in r.registry
               && r.registry[Key(c.session, c.taken[i].gpu)] in elsewhere;
      var key := Key(c.session, c.taken[i].gpu);
      var fd := r.registry[key];
      assert r.locks.owner[key.gpu] == Mine(fd);
      assert fd !in TakenFds(c) + Orphans(r, c, elsewhere);
      assert key.gpu in r'.locks.owner && r'.locks.owner[key.gpu] == Mine(fd);
      assert c.taken[i] in c.taken && key in TakenKeys(c);
      assert forall k :: k in r'.registry && k.gpu == key.gpu ==> k == key;
    }
  }

  lemma RollbackDrops(r: Shared, c: Call, elsewhere: set<nat>)
    requires Consistent(r.locks) && Accounted(r) && CallOk(r, c) && SparesWaiting(r, c, elsewhere)
    ensures var fds := TakenFds(c) + Orphans(r, c, elsewhere);
      && (forall k :: k in r.registry && r.registry[k] in fds ==> k in TakenKeys(c))
      && (forall k :: k in TakenKeys(c) && k in r.registry ==> r.registry[k] in fds)
  {
    forall k | k in r.registry && r.registry[k] in TakenFds(c)
      ensures k in TakenKeys(c)
    {
      TakenIsOwn(r, c, k);
    }
    forall k | k in r.registry && r.registry[k] in Orphans(r, c, elsewhere)
      ensures k in TakenKeys(c)
    {
      var k' :| k' in TakenKeys(c) && k' in r.registry && r.registry[k'] == r.registry[k];
      assert r.locks.owner[k.gpu] == r.locks.owner[k'.gpu] && k.gpu == k'.gpu;
    }
    forall k | k in TakenKeys(c) && k in r.registry
      ensures r.registry[k] in Orphans(r, c, elsewhere)
    {
      var t :| t in c.taken && Key(c.session, t.gpu) == k;
      var i :| 0 <= i < |c.taken| && c.taken[i] == t;
    }
  }

  /** An entry under one of a call's descriptors is the call's own. */
  lemma TakenIsOwn(r: Shared, c: Call, k: Key)
    requires Consistent(r.locks) && Accounted(r) && CallOk(r, c) && k in r.registry && r.registry[k] in TakenFds(c)
    ensures k in TakenKeys(c)
  {
    var t :| t in c.taken && t.fd == r.registry[k];
    var i :| 0 <= i < |c.taken| && c.taken[i] == t;
    assert r.locks.open[t.fd] == k.gpu;
    assert t.gpu == k.gpu;
  }

  /** The step that spoils the accounts: a time-out that pops another suspended call's entry. */
  ghost predicate Loses(s: System, step: Step) {
    TimesOut(s, step) && !SparesWaiting(s.shared, s.calls[step.n], Elsewhere(s, step.n))
  }

  predicate TimesOut(s: System, step: Step) {
    step.TimeOut? && step.n in s.calls && |s.calls[step.n].taken| < s.calls[step.n].want
  }

  lemma ElsewhereIs(s: System, n: nat, m: nat)
    requires n in s.calls && m in s.calls && n != m
    ensures TakenFds(s.calls[m]) <= Elsewhere(s, n)
    ensures Apart(s) ==> TakenFds(s.calls[n]) !! Elsewhere(s, n)
  {
    forall fd | fd in TakenFds(s.calls[n]) && Apart(s) ensures fd !in Elsewhere(s, n) {
      forall k, t | k in s.calls && k != n && t in s.calls[k].taken ensures t.fd != fd {
        assert t.fd in TakenFds(s.calls[k]);
      }
    }
  }

  lemma OwnIsNotElsewhere(s: System, n: nat)
    requires Apart(s) && n in s.calls
    ensures TakenFds(s.calls[n]) !! Elsewhere(s, n)
  {
    forall m, t | m in s.calls && m != n && t in s.calls[m].taken ensures t.fd !in TakenFds(s.calls[n]) {
      assert t.fd in TakenFds(s.calls[m]);
    }
  }

  lemma TimeOutKeepsSound(s: System, n: nat)
    requires Sound(s) && !Loses(s, TimeOut(n))
    ensures Sound(Do(s, TimeOut(n)))
    ensures OneCallEach(s) ==> OneCallEach(Do(s, TimeOut(n)))
  {
    if TimesOut(s, TimeOut(n)) {
      var r, c := s.shared, s.calls[n];
      var s' := Do(s, TimeOut(n));
      RollbackDrops(r, c, Elsewhere(s, n));
      DropKeepsAccounts(r, TakenFds(c) + Orphans(r, c, Elsewhere(s, n)), TakenKeys(c), s'.shared);
      forall m | m in s'.calls
        ensures CallOk(s'.shared, s'.calls[m])
      {
        ElsewhereIs(s, n, m);
        RollbackSparesOthers(r, c, Elsewhere(s, n), s.calls[m]);
      }
    }
  }

  lemma RollbackSparesOthers(r: Shared, c: Call, elsewhere: set<nat>, other: Call)
    requires Consistent(r.locks) && Accounted(r) && CallOk(r, c) && SparesWaiting(r, c, elsewhere)
    requires CallOk(r, other) && TakenFds(other) <= elsewhere
    ensures CallOk(RolledBack(r, c, elsewhere), other)
  {
    var r' := RolledBack(r, c, elsewhere);
    forall i | 0 <= i < |other.taken| && other.taken[i].fd in r'.locks.open
      ensures Key(other.session, other.taken[i].gpu) in r'.registry
    {
      assert other.taken[i] in other.taken && other.taken[i].fd in elsewhere;
      var key := Key(other.session, other.taken[i].gpu);
      forall t | t in c.taken ensures Key(c.session, t.gpu) != key {
        var j :| 0 <= j < |c.taken| && c.taken[j] == t;
      }
    }
  }

  /** As long as the accounts are right, dropping a list closes nothing: what a call still has
      open is registered. */
  lemma ForgettingChangesNothing(s: System, n: nat)
    requires Sound(s) && n in s.calls
    ensures Ended(s, n) == s.(calls := s.calls - {n})
  {
    var r, c := s.shared, s.calls[n];
    var fds := TakenFds(c) - Elsewhere(s, n) - r.registry.Values;
    forall t | t in c.taken && t.fd in r.locks.open ensures t.fd in r.registry.Values {
      OpenIsHolding(s, n, t);
    }
    assert CloseAll(r.locks, fds).owner == r.locks.owner;
    assert CloseAll(r.locks, fds).open == r.locks.open;
  }

  lemma StepKeepsSound(s: System, step: Step)
    requires Sound(s) && !Loses(s, step)
    ensures Sound(Do(s, step))
  {
    match step
    case TryGpu(n, g) => if MayTry(s, n, g) { AttemptKeepsSound(s, n, g); }
    case Return(n) => if n in s.calls { ForgettingChangesNothing(s, n); }
    case Cancel(n) => if n in s.calls { ForgettingChangesNothing(s, n); }
    case Release(session) => ReleaseKeepsSound(s, session);
    case TimeOut(n) => TimeOutKeepsSound(s, n);
    case OutsideLock(g, pid) => OutsideKeepsSound(s, step);
    case OutsideUnlock(g) => OutsideKeepsSound(s, step);
    case _ =>
  }

  /** One step of anybody leaves the registry equal to the locks this server holds if and
      only if it is not such a time-out. */
  lemma AccountedAfterIff(s: System, step: Step)
    requires Sound(s)
    ensures Accounted(Do(s, step).shared) <==> !Loses(s, step)
  {
    if Loses(s, step) {
      OwnIsNotElsewhere(s, step.n);
      RollbackAccountsIff(s.shared, s.calls[step.n], Elsewhere(s, step.n));
    } else {
      StepKeepsSound(s, step);
    }
  }

  lemma OutsideKeepsSound(s: System, step: Step)
    requires Sound(s) && (step.OutsideLock? || step.OutsideUnlock?)
    ensures Sound(Do(s, step)) && (OneCallEach(s) ==> OneCallEach(Do(s, step)))
  {
    var s' := Do(s, step);
    OutsideLeavesOurs(s, step);
    forall m | m in s'.calls
      ensures CallOk(s'.shared, s'.calls[m])
    {
      assert CallOk(s.shared, s.calls[m]);
    }
  }

  /** Other processes neither take nor drop a lock of this server. */
  lemma OutsideLeavesOurs(s: System, step: Step)
    requires Consistent(s.shared.locks) && Accounted(s.shared) && (step.OutsideLock? || step.OutsideUnlock?)
    ensures var s' := Do(s, step);
      && Consistent(s'.shared.locks) && Accounted(s'.shared) && s'.calls == s.calls && s'.ids == s.ids
      && s'.shared.registry == s.shared.registry
      && s'.shared.locks.open == s.shared.locks.open && s'.shared.locks.next == s.shared.locks.next
  {
    OutsideChangesOutside(s, step);
    OursDecide(s.shared, Do(s, step).shared);
  }

  lemma OutsideChangesOutside(s: System, step: Step)
    requires step.OutsideLock? || step.OutsideUnlock?
    ensures var s' := Do(s, step);
      && s'.calls == s.calls && s'.ids == s.ids
      && s'.shared == s.shared.(locks := s.shared.locks.(owner := s'.shared.locks.owner))
      && SameOurs(s.shared.locks.owner, s'.shared.locks.owner) && SameOurs(s'.shared.locks.owner, s.shared.locks.owner)
  {
  }

  ghost predicate SameOurs(a: map<Gpu, Handle>, b: map<Gpu, Handle>) {
    forall g :: g in a && a[g].Mine? ==> g in b && b[g] == a[g]
  }

  /** Accounts speak of this server's locks only. */
  lemma OursDecide(r: Shared, r': Shared)
    requires Consistent(r.locks) && Accounted(r) && r' == r.(locks := r.locks.(owner := r'.locks.owner))
    requires SameOurs(r.locks.owner, r'.locks.owner) && SameOurs(r'.locks.owner, r.locks.owner)
    ensures Consistent(r'.locks) && Accounted(r')
  {
  }

  // ---------------------------------------------------------------- whole runs

  lemma InitialIsSound(ids: seq<Gpu>)
    ensures Sound(Initial(ids)) && Known(Initial(ids)) && OneCallEach(Initial(ids)) && AllOpen(Initial(ids))
  {
  }

  ghost predicate NeverLoses(s: System, steps: seq<Step>)
    decreases |steps|
  {
    steps == [] || (!Loses(s, steps[0]) && NeverLoses(Do(s, steps[0]), steps[1..]))
  }

  ghost predicate AlwaysAccounted(s: System, steps: seq<Step>)
    decreases |steps|
  {
    Accounted(s.shared) && (steps == [] || AlwaysAccounted(Do(s, steps[0]), steps[1..]))
  }

  /** Every interleaving of any number of acquires, also of one session: the registry is
      exactly the locks this server holds, at every moment, if and only if no time-out pops
      another call's entry. */
  lemma {:induction false} EveryRunIsAccountedIff(s: System, steps: seq<Step>)
    requires Sound(s)
    ensures AlwaysAccounted(s, steps) <==> NeverLoses(s, steps)
    ensures NeverLoses(s, steps) ==> Sound(Run(s, steps))
    decreases |steps|
  {
    if steps != [] {
      AccountedAfterIff(s, steps[0]);
      if !Loses(s, steps[0]) {
        StepKeepsSound(s, steps[0]);
        EveryRunIsAccountedIff(Do(s, steps[0]), steps[1..]);
      } else {
        assert !AlwaysAccounted(Do(s, steps[0]), steps[1..]);
      }
    }
  }

  // ---------------------------------------------------------------- popping somebody's entry

  /** A time-out that pops an entry not its own: of a call of the same session, suspended or
      returned, that registered the GPU after a release. */
  ghost predicate Strays(s: System, step: Step) {
    TimesOut(s, step) && !RollbackSafe(s.shared, s.calls[step.n])
  }

  ghost predicate NeverStrays(s: System, steps: seq<Step>)
    decreases |steps|
  {
    steps == [] || (!Strays(s, steps[0]) && NeverStrays(Do(s, steps[0]), steps[1..]))
  }

  lemma LosingIsStraying(s: System, step: Step)
    requires Sound(s) && Loses(s, step)
    ensures Strays(s, step)
  {
    var c := s.calls[step.n];
    OwnIsNotElsewhere(s, step.n);
    var i :| 0 <= i < |c.taken| && Key(c.session, c.taken[i].gpu) in s.shared.registry
             && s.shared.registry[Key(c.session, c.taken[i].gpu)] in Elsewhere(s, step.n);
    assert c.taken[i].fd in TakenFds(c) by { assert c.taken[i] in c.taken; }
  }

  /** A discipline of the callers that rules it out: one acquire of a session at a time. */
  lemma {:induction false} OneAcquireEachNeverStrays(s: System, steps: seq<Step>)
    requires Sound(s) && OneCallEach(s) && Disciplined(s, steps)
    ensures NeverStrays(s, steps) && NeverLoses(s, steps)
    decreases |steps|
  {
    if steps != [] {
      assert !Strays(s, steps[0]);
      if Loses(s, steps[0]) { LosingIsStraying(s, steps[0]); }
      StepKeepsSound(s, steps[0]);
      StepKeepsOneEach(s, steps[0]);
      OneAcquireEachNeverStrays(Do(s, steps[0]), steps[1..]);
    }
  }

  lemma StepKeepsOneEach(s: System, step: Step)
    requires Sound(s) && OneCallEach(s) && StartsAlone(s, step) && !Loses(s, step)
    ensures OneCallEach(Do(s, step))
  {
    match step
    case TryGpu(n, g) => if MayTry(s, n, g) { AttemptKeepsSound(s, n, g); }
    case Return(n) => if n in s.calls { ForgettingChangesNothing(s, n); }
    case Cancel(n) => if n in s.calls { ForgettingChangesNothing(s, n); }
    case Release(session) => ReleaseKeepsSound(s, session);
    case TimeOut(n) => TimeOutKeepsSound(s, n);
    case OutsideLock(g, pid) => OutsideKeepsSound(s, step);
    case OutsideUnlock(g) => OutsideKeepsSound(s, step);
    case _ =>
  }

  /** No suspended call has lost a descriptor. */
  ghost predicate AllOpen(s: System) {
    forall n, t :: n in s.calls && t in s.calls[n].taken ==> t.fd in s.shared.locks.open
  }

  /** Nobody releases a session that is waiting for GPUs. */
  predicate Patient(s: System, steps: seq<Step>)
    decreases |steps|
  {
    steps == [] ||
    (&& (steps[0].Release? ==> forall n :: n in s.calls ==> s.calls[n].session != steps[0].session)
     && Patient(Do(s, steps[0]), steps[1..]))
  }

  lemma OpenMeansSafe(s: System, step: Step)
    requires Sound(s) && AllOpen(s)
    ensures !Strays(s, step) && !Loses(s, step)
  {
    if TimesOut(s, step) {
      var c := s.calls[step.n];
      forall i | 0 <= i < |c.taken| ensures c.taken[i].fd in s.shared.locks.open {
        assert c.taken[i] in c.taken;
      }
    }
    if Loses(s, step) { LosingIsStraying(s, step); }
  }

  lemma StepKeepsOpen(s: System, step: Step)
    requires Sound(s) && AllOpen(s)
    requires step.Release? ==> forall n :: n in s.calls ==> s.calls[n].session != step.session
    ensures AllOpen(Do(s, step))
  {
    match step
    case Release(session) => ReleaseKeepsOpen(s, session);
    case TimeOut(m) => if TimesOut(s, step) { TimeOutKeepsOpen(s, m); }
    case Return(n) => if n in s.calls { ForgettingChangesNothing(s, n); }
    case Cancel(n) => if n in s.calls { ForgettingChangesNothing(s, n); }
    case _ =>
  }

  lemma ReleaseKeepsOpen(s: System, session: SessionId)
    requires Sound(s) && AllOpen(s) && forall n :: n in s.calls ==> s.calls[n].session != session
    ensures AllOpen(Do(s, Release(session)))
  {
    forall n, t | n in s.calls && t in s.calls[n].taken ensures t.fd in Do(s, Release(session)).shared.locks.open {
      OpenIsHolding(s, n, t);
      ReleaseSparesOthers(s.shared, session, s.calls[n].session, t);
    }
  }

  lemma TimeOutKeepsOpen(s: System, m: nat)
    requires Sound(s) && AllOpen(s) && TimesOut(s, TimeOut(m))
    ensures AllOpen(Do(s, TimeOut(m)))
  {
    OwnIsNotElsewhere(s, m);
    forall n, t | n in s.calls && n != m && t in s.calls[n].taken ensures t.fd in Elsewhere(s, m) {
    }
  }

  lemma OpenIsHolding(s: System, n: nat, t: Taken)
    requires Sound(s) && n in s.calls && t in s.calls[n].taken && t.fd in s.shared.locks.open
    ensures Holding(s.shared, s.calls[n].session, t)
  {
    var i :| 0 <= i < |s.calls[n].taken| && s.calls[n].taken[i] == t;
    assert CallOk(s.shared, s.calls[n]);
  }

  /** Another: no session is released while it waits, however many acquires it has. */
  lemma {:induction false} PatientRunsNeverStray(s: System, steps: seq<Step>)
    requires Sound(s) && AllOpen(s) && Patient(s, steps)
    ensures NeverStrays(s, steps) && NeverLoses(s, steps)
    decreases |steps|
  {
    if steps != [] {
      OpenMeansSafe(s, steps[0]);
      StepKeepsSound(s, steps[0]);
      StepKeepsOpen(s, steps[0]);
      PatientRunsNeverStray(Do(s, steps[0]), steps[1..]);
    }
  }

  // ---------------------------------------------------------------- keeping what was returned

  /** Every lock file is registered once, and no descriptor is used twice. */
  ghost predicate Filed(s: System) {
    && Consistent(s.shared.locks)
    && (forall k, k' :: k in s.shared.registry && k' in s.shared.registry && k != k' ==>
          s.shared.registry[k] != s.shared.registry[k'])
    && (forall k :: k in s.shared.registry ==> s.shared.registry[k] < s.shared.locks.next)
    && (forall fd :: fd in WaitingFds(s) ==> fd < s.shared.locks.next)
  }

  /** The descriptors that suspended calls are still collecting. */
  function WaitingFds(s: System): set<nat> {
    set n, t | n in s.calls && t in s.calls[n].taken :: t.fd
  }

  lemma SoundIsFiled(s: System)
    requires Sound(s)
    ensures Filed(s)
  {
    forall k | k in s.shared.registry
      ensures s.shared.registry[k] in s.shared.locks.open && s.shared.locks.open[s.shared.registry[k]] == k.gpu
    {
      assert s.shared.locks.owner[k.gpu] == Mine(s.shared.registry[k]);
    }
    forall fd | fd in WaitingFds(s) ensures fd < s.shared.locks.next {
      var n, t :| n in s.calls && t in s.calls[n].taken && t.fd == fd;
      var i :| 0 <= i < |s.calls[n].taken| && s.calls[n].taken[i] == t;
      assert CallOk(s.shared, s.calls[n]);
    }
  }

  lemma WaitingAfter(s: System, step: Step)
    ensures forall fd :: fd in WaitingFds(Do(s, step)) && fd !in WaitingFds(s) ==>
              fd == s.shared.locks.next < Do(s, step).shared.locks.next
  {
    var s' := Do(s, step);
    forall n, t | n in s'.calls && t in s'.calls[n].taken
      ensures (n in s.calls && t in s.calls[n].taken) || t.fd == s.shared.locks.next < s'.shared.locks.next
    {
    }
  }

  lemma StepKeepsFiled(s: System, step: Step)
    requires Filed(s)
    ensures Filed(Do(s, step))
    ensures s.shared.locks.next <= Do(s, step).shared.locks.next
  {
    WaitingAfter(s, step);
    match step
    case TryGpu(n, g) => if MayTry(s, n, g) { AttemptKeepsFiled(s, n, g); }
    case _ =>
  }

  lemma AttemptKeepsFiled(s: System, n: nat, g: Gpu)
    requires Filed(s) && MayTry(s, n, g)
    ensures var r := Do(s, TryGpu(n, g)).shared;
      && Consistent(r.locks) && r.locks.next == s.shared.locks.next + 1
      && (forall k :: k in r.registry ==> r.registry[k] < r.locks.next)
      && (forall k, k' :: k in r.registry && k' in r.registry && r.registry[k] == r.registry[k'] ==> k == k')
  {
    if Blocked(s.shared.locks, g) {
      BlockedAttempt(s.shared, s.calls[n], g);
    }
  }

  /** A time-out of the same session that had taken the same GPU before a release. */
  predicate Robs(s: System, step: Step, session: SessionId, g: Gpu) {
    TimesOut(s, step) && s.calls[step.n].session == session && g in TakenGpus(s.calls[step.n])
  }

  /** What a call returned stays registered and locked over one step, its session not being
      released, if and only if that step is not such a time-out. */
  lemma KeptAfterIff(s: System, step: Step, session: SessionId, t: Taken)
    requires Filed(s) && Holding(s.shared, session, t) && t.fd !in WaitingFds(s)
    requires step != Release(session)
    ensures Holding(Do(s, step).shared, session, t) <==> !Robs(s, step, session, t.gpu)
    ensures t.fd !in WaitingFds(Do(s, step))
    ensures Robs(s, step, session, t.gpu) ==> t.fd !in Do(s, step).shared.registry.Values
  {
    WaitingAfter(s, step);
    match step
    case TryGpu(n, g) =>
      if MayTry(s, n, g) && Blocked(s.shared.locks, g) { BlockedAttempt(s.shared, s.calls[n], g); }
    case TimeOut(n) => if TimesOut(s, step) { TimeOutRobsIff(s, n, session, t); }
    case Return(n) => if n in s.calls { EndingSpares(s, n, t.fd); }
    case Cancel(n) => if n in s.calls { EndingSpares(s, n, t.fd); }
    case _ =>
  }

  lemma EndingSpares(s: System, n: nat, fd: nat)
    requires n in s.calls && fd !in WaitingFds(s)
    ensures fd !in TakenFds(s.calls[n])
  {
  }

  lemma TimeOutRobsIff(s: System, n: nat, session: SessionId, t: Taken)
    requires Filed(s) && Holding(s.shared, session, t) && t.fd !in WaitingFds(s) && TimesOut(s, TimeOut(n))
    ensures Holding(Do(s, TimeOut(n)).shared, session, t) <==> !Robs(s, TimeOut(n), session, t.gpu)
    ensures Robs(s, TimeOut(n), session, t.gpu) ==> t.fd !in Do(s, TimeOut(n)).shared.registry.Values
  {
    var c, key := s.calls[n], Key(session, t.gpu);
    EndingSpares(s, n, t.fd);
    assert key in TakenKeys(c) <==> Robs(s, TimeOut(n), session, t.gpu) by { TakenEitherWay(c, t.gpu); }
    assert t.fd in Orphans(s.shared, c, Elsewhere(s, n)) ==> key in TakenKeys(c);
  }

  lemma TakenEitherWay(c: Call, g: Gpu)
    ensures g in TakenGpus(c) <==> Key(c.session, g) in TakenKeys(c)
    ensures g in IdSet(TakenGpus(c)) <==> Key(c.session, g) in TakenKeys(c)
  {
    if g in TakenGpus(c) {
      var i :| 0 <= i < |TakenGpus(c)| && TakenGpus(c)[i] == g;
      assert c.taken[i] in c.taken;
    }
    if t :| t in c.taken && t.gpu == g {
      var i :| 0 <= i < |c.taken| && c.taken[i] == t;
      assert TakenGpus(c)[i] == g;
    }
  }

  /** A descriptor that has left the registry never comes back. */
  lemma {:induction false} GoneStaysGone(s: System, steps: seq<Step>, fd: nat)
    requires Filed(s) && fd < s.shared.locks.next && fd !in s.shared.registry.Values
    ensures fd !in Run(s, steps).shared.registry.Values
    decreases |steps|
  {
    if steps != [] {
      StepKeepsFiled(s, steps[0]);
      GoneStaysGone(Do(s, steps[0]), steps[1..], fd);
    }
  }

  predicate NeverRobs(s: System, steps: seq<Step>, session: SessionId, g: Gpu)
    decreases |steps|
  {
    steps == [] || (!Robs(s, steps[0], session, g) && NeverRobs(Do(s, steps[0]), steps[1..], session, g))
  }

  lemma {:induction false} KeptIff(s: System, steps: seq<Step>, session: SessionId, t: Taken)
    requires Filed(s) && Holding(s.shared, session, t) && t.fd !in WaitingFds(s)
    requires Release(session) !in steps
    ensures Holding(Run(s, steps).shared, session, t) <==> NeverRobs(s, steps, session, t.gpu)
    decreases |steps|
  {
    if steps != [] {
      var s' := Do(s, steps[0]);
      StepKeepsFiled(s, steps[0]);
      KeptAfterIff(s, steps[0], session, t);
      if Robs(s, steps[0], session, t.gpu) {
        GoneStaysGone(s', steps[1..], t.fd);
      } else {
        KeptIff(s', steps[1..], session, t);
      }
    }
  }

  /** A returned acquire keeps each of its GPUs registered and locked until its session is
      released, in any interleaving, accounts right or wrong, if and only if no call of the
      same session that had taken that GPU before a release times out. */
  lemma ReturnedKeepsItsLockIff(s: System, n: nat, t: Taken, steps: seq<Step>)
    requires Sound(s) && n in s.calls && |s.calls[n].taken| >= s.calls[n].want && HoldsAll(s, n)
    requires t in s.calls[n].taken && Release(s.calls[n].session) !in steps
    ensures var s', session := Do(s, Return(n)), s.calls[n].session;
      Holding(Run(s', steps).shared, session, t) <==> NeverRobs(s', steps, session, t.gpu)
  {
    var s' := Do(s, Return(n));
    StepKeepsSound(s, Return(n));
    SoundIsFiled(s');
    ForgettingChangesNothing(s, n);
    assert Holding(s.shared, s.calls[n].session, t);
    OwnIsNotElsewhere(s, n);
    assert t.fd in TakenFds(s.calls[n]);
    forall m, u | m in s'.calls && u in s'.calls[m].taken ensures u.fd != t.fd {
      assert u.fd in Elsewhere(s, n);
    }
    KeptIff(s', steps, s.calls[n].session, t);
  }

  // ---------------------------------------------------------------- the two failures

  /** Session `s` is released while its first acquire is suspended with GPU 0. */
  const Prelude: seq<Step> := [OutsideLock(1, 7), Start(1, "s", 2), TryGpu(1, 0), Release("s")]

  /** A second acquire takes GPU 0 and waits for GPU 1; then the first one times out. */
  const LosingRun: seq<Step> := Prelude + [Start(2, "s", 2), TryGpu(2, 0), TimeOut(1)]

  /** A second acquire takes GPU 0, which is all it wants, and returns; then the first one
      times out. */
  const RobbingRun: seq<Step> := Prelude + [Start(2, "s", 1), TryGpu(2, 0), Return(2), TimeOut(1)]

  /** The second call holds GPU 0 by descriptor 1, and the registry knows nothing of it. */
  ghost predicate LockLost(s: System) {
    && 2 in s.calls && s.calls[2] == Call("s", 2, [Taken(0, 1)])
    && 0 in s.shared.locks.owner && s.shared.locks.owner[0] == Mine(1) && s.shared.registry == map[]
    && !Accounted(s.shared)
  }

  /** Nobody waits, nothing is registered and nobody holds GPU 0. */
  ghost predicate LockDropped(s: System) {
    s.calls == map[] && s.shared.registry == map[] && !Blocked(s.shared.locks, 0) && Accounted(s.shared)
  }

  lemma OverlappingAcquiresLoseALock()
    ensures LockLost(Run(Initial([0, 1]), LosingRun))
  {
    UntilReleased();
    UntilTakenAgain(2);
    RunOfBoth(Initial([0, 1]), Prelude, [Start(2, "s", 2), TryGpu(2, 0), TimeOut(1)]);
    RunOfThree(OnceReleased, Start(2, "s", 2), TryGpu(2, 0), TimeOut(1));
    LostByTimeOut();
  }

  /** The session whose acquire succeeded is active without its lock. */
  lemma ALateTimeOutRobsAReturnedAcquire()
    ensures LockDropped(Run(Initial([0, 1]), RobbingRun))
  {
    UntilReleased();
    UntilTakenAgain(1);
    RunOfBoth(Initial([0, 1]), Prelude, [Start(2, "s", 1), TryGpu(2, 0), Return(2), TimeOut(1)]);
    RunOfFour(OnceReleased, Start(2, "s", 1), TryGpu(2, 0), Return(2), TimeOut(1));
    DroppedByTimeOut();
  }

  const OnceReleased := System([0, 1], Shared(LockTable(map[1 := Outside(7)], map[], 1), map[]),
                               map[1 := Call("s", 2, [Taken(0, 0)])])

  function TakenAgain(want: nat): System {
    System([0, 1],
           Shared(LockTable(map[1 := Outside(7), 0 := Mine(1)], map[1 := 0], 2), map[Key("s", 0) := 1]),
           map[1 := Call("s", 2, [Taken(0, 0)]), 2 := Call("s", want, [Taken(0, 1)])])
  }

  lemma FreeAttempt(r: Shared, c: Call, g: Gpu)
    requires !Blocked(r.locks, g)
    ensures Attempt(r, c, g)
        == (Shared(LockTable(r.locks.owner[g := Mine(r.locks.next)], r.locks.open[r.locks.next := g], r.locks.next + 1),
                                        r.registry[Key(c.session, g) := r.locks.next]),
                                 c.(taken := c.taken + [Taken(g, r.locks.next)]))
  {
  }

  lemma UntilReleased()
    ensures Run(Initial([0, 1]), Prelude) == OnceReleased
  {
    RunOfFour(Initial([0, 1]), OutsideLock(1, 7), Start(1, "s", 2), TryGpu(1, 0), Release("s"));
    var s2 := Do(Do(Initial([0, 1]), OutsideLock(1, 7)), Start(1, "s", 2));
    assert s2 == System([0, 1], Shared(LockTable(map[1 := Outside(7)], map[], 0), map[]), map[1 := Call("s", 2, [])]);
    var s3 := Do(s2, TryGpu(1, 0));
    assert MayTry(s2, 1, 0);
    FreeAttempt(s2.shared, s2.calls[1], 0);
    assert s2.calls[1].taken + [Taken(0, 0)] == [Taken(0, 0)];
    assert s3.calls == map[1 := Call("s", 2, [Taken(0, 0)])];
    assert s3 == System([0, 1],
        Shared(LockTable(map[1 := Outside(7), 0 := Mine(0)], map[0 := 0], 1), map[Key("s", 0) := 0]),
                        map[1 := Call("s", 2, [Taken(0, 0)])]);
    assert KeysOf(s3.shared, "s") == {Key("s", 0)};
    var s4 := Do(s3, Release("s"));
    assert s4.shared.locks.owner == map[1 := Outside(7)];
    assert s4.shared.locks.open == map[];
    assert s4.shared.registry == map[];
  }

  lemma UntilTakenAgain(want: nat)
    requires 1 <= want <= 2
    ensures Do(Do(OnceReleased, Start(2, "s", want)), TryGpu(2, 0)) == TakenAgain(want)
  {
    var s5 := Do(OnceReleased, Start(2, "s", want));
    assert s5.calls[2] == Call("s", want, []) && MayTry(s5, 2, 0);
    FreeAttempt(s5.shared, s5.calls[2], 0);
    assert s5.calls[2].taken + [Taken(0, 1)] == [Taken(0, 1)];
    var s6 := Do(s5, TryGpu(2, 0));
    assert s6.calls == TakenAgain(want).calls;
  }

  lemma LostByTimeOut()
    ensures LockLost(Do(TakenAgain(2), TimeOut(1)))
  {
    var s := TakenAgain(2);
    var c, r := s.calls[1], Do(s, TimeOut(1)).shared;
    assert c.taken[0] in c.taken && Key("s", 0) in TakenKeys(c);
    assert Taken(0, 1) in s.calls[2].taken && 1 in Elsewhere(s, 1);
    assert TakenFds(c) + Orphans(s.shared, c, Elsewhere(s, 1)) == {0};
    assert r.registry.Keys == {};
    assert r.locks.owner[0] == Mine(1);
  }

  lemma DroppedByTimeOut()
    ensures LockDropped(Do(Do(TakenAgain(1), Return(2)), TimeOut(1)))
  {
    var s := TakenAgain(1);
    var s' := Do(s, Return(2));
    assert s.shared.registry[Key("s", 0)] in s.shared.registry.Values;
    assert TakenFds(s.calls[2]) - Elsewhere(s, 2) - s.shared.registry.Values == {};
    CloseAllOfNothing(s.shared.locks);
    assert s' == s.(calls := map[1 := s.calls[1]]);
    var c, r := s'.calls[1], Do(s', TimeOut(1)).shared;
    assert c.taken[0] in c.taken && Key("s", 0) in TakenKeys(c);
    assert Elsewhere(s', 1) == {};
    assert 1 in Orphans(s'.shared, c, {});
    assert r.registry.Keys == {} && 0 !in r.locks.owner;
    assert Do(s', TimeOut(1)).calls.Keys == {};
  }

  lemma {:induction false} RunOfBoth(s: System, a: seq<Step>, b: seq<Step>)
    ensures Run(s, a + b) == Run(Run(s, a), b)
    decreases |a|
  {
    if a == [] {
      assert a + b == b;
    } else {
      assert (a + b)[1..] == a[1..] + b;
      RunOfBoth(Do(s, a[0]), a[1..], b);
    }
  }

  lemma RunOfOne(s: System, a: Step)
    ensures Run(s, [a]) == Do(s, a)
  {
    assert [a][1..] == [];
  }

  lemma RunOfTwo(s: System, a: Step, b: Step)
    ensures Run(s, [a, b]) == Do(Do(s, a), b)
  {
    assert [a, b][1..] == [b];
    RunOfOne(Do(s, a), b);
  }

  lemma RunOfThree(s: System, a: Step, b: Step, c: Step)
    ensures Run(s, [a, b, c]) == Do(Do(Do(s, a), b), c)
  {
    assert [a, b, c][1..] == [b, c];
    RunOfTwo(Do(s, a), b, c);
  }

  lemma RunOfFour(s: System, a: Step, b: Step, c: Step, d: Step)
    ensures Run(s, [a, b, c, d]) == Do(Do(Do(Do(s, a), b), c), d)
  {
    assert [a, b, c, d][1..] == [b, c, d];
    RunOfThree(Do(s, a), b, c, d);
  }

  // ---------------------------------------------------------------- what a pass takes

  /** The ids that nobody has locked and that are not on the list, each once, in order. */
  function Unlocked(t: LockTable, have: set<Gpu>, ids: seq<Gpu>): seq<Gpu>
    decreases |ids|
  {
    if ids == [] then []
    else if ids[0] in have || Blocked(t, ids[0]) then Unlocked(t, have, ids[1..])
    else [ids[0]] + Unlocked(t, have + {ids[0]}, ids[1..])
  }

  function UpTo(n: int, s: seq<Gpu>): seq<Gpu> {
    if n <= 0 then [] else if n <= |s| then s[..n] else s
  }

  /** What taking these GPUs leaves: they have joined the list, each is locked and registered
      under its own descriptor, and nothing else has another owner or entry. */
  ghost predicate Grown(r: Shared, c: Call, added: seq<Gpu>, r': Shared, c': Call) {
    && c'.session == c.session && c'.want == c.want && c.taken <= c'.taken
    && TakenGpus(c') == TakenGpus(c) + added
    && (forall t :: t in c'.taken[|c.taken|..] ==> Holding(r', c.session, t))
    && (forall g :: g !in added ==> Owner(r'.locks, g) == Owner(r.locks, g))
    && (forall k: Key :: k.session != c.session || k.gpu !in added ==> Entry(r', k) == Entry(r, k))
  }

  /** What a pass leaves, without saying how: the first unlocked GPUs in order are taken, up to
      what was wanted; the call has all it wants or every GPU is on its list or was locked; and
      it has all it wants if and only if enough of them were unlocked. */
  ghost predicate PassTakes(r: Shared, c: Call, ids: seq<Gpu>, r': Shared, c': Call) {
    var have := IdSet(TakenGpus(c));
    && Grown(r, c, UpTo(c.want - |c.taken|, Unlocked(r.locks, have, ids)), r', c')
    && (|c'.taken| >= c.want || forall g :: g in ids ==> g in TakenGpus(c') || Blocked(r.locks, g))
    && (|c'.taken| >= c.want <==> |FreeSet(r.locks, have, ids)| >= c.want - |c.taken|)
  }

  function Entry(r: Shared, k: Key): set<nat> {
    if k in r.registry then {r.registry[k]} else {}
  }

  function Owner(t: LockTable, g: Gpu): set<Handle> {
    if g in t.owner then {t.owner[g]} else {}
  }

  function FreeSet(t: LockTable, have: set<Gpu>, ids: seq<Gpu>): set<Gpu> {
    set g | g in ids && g !in have && !Blocked(t, g)
  }

  lemma IdSetOfCons(g: Gpu, tail: seq<Gpu>)
    ensures IdSet([g] + tail) == {g} + IdSet(tail)
  {
    forall x ensures x in IdSet([g] + tail) <==> x in {g} + IdSet(tail) {
      InIdSet([g] + tail, x);
      InIdSet(tail, x);
    }
  }

  lemma FreeSetOfCons(t: LockTable, have: set<Gpu>, g: Gpu, rest: seq<Gpu>)
    ensures FreeSet(t, have, [g] + rest) ==
            if g in have || Blocked(t, g) then FreeSet(t, have, rest) else {g} + FreeSet(t, have + {g}, rest)
    ensures g !in FreeSet(t, have + {g}, rest)
  {
    assert forall x :: x in [g] + rest <==> x == g || x in rest;
  }

  lemma {:induction false} UnlockedIs(t: LockTable, have: set<Gpu>, ids: seq<Gpu>)
    ensures IdSet(Unlocked(t, have, ids)) == FreeSet(t, have, ids)
    ensures |Unlocked(t, have, ids)| == |FreeSet(t, have, ids)|
    decreases |ids|
  {
    if ids != [] {
      var g, rest := ids[0], ids[1..];
      assert ids == [g] + rest;
      FreeSetOfCons(t, have, g, rest);
      if g in have || Blocked(t, g) {
        UnlockedIs(t, have, rest);
      } else {
        UnlockedIs(t, have + {g}, rest);
        IdSetOfCons(g, Unlocked(t, have + {g}, rest));
      }
    }
  }

  /** Where a GPU first comes in the list of ids. */
  function FirstAt(ids: seq<Gpu>, g: Gpu): nat {
    if ids == [] || ids[0] == g then 0 else 1 + FirstAt(ids[1..], g)
  }

  /** "In order": what comes first among the unlocked comes first among the ids. */
  lemma {:induction false} UnlockedInOrder(t: LockTable, have: set<Gpu>, ids: seq<Gpu>, i: nat, j: nat)
    requires i < j < |Unlocked(t, have, ids)|
    ensures FirstAt(ids, Unlocked(t, have, ids)[i]) < FirstAt(ids, Unlocked(t, have, ids)[j])
    decreases |ids|
  {
    var g, rest, free := ids[0], ids[1..], Unlocked(t, have, ids);
    if g in have || Blocked(t, g) {
      UnlockedAt(t, have, rest, i);
      UnlockedAt(t, have, rest, j);
      UnlockedInOrder(t, have, rest, i, j);
    } else {
      var tail := Unlocked(t, have + {g}, rest);
      UnlockedAt(t, have + {g}, rest, j - 1);
      if i > 0 {
        UnlockedAt(t, have + {g}, rest, i - 1);
        UnlockedInOrder(t, have + {g}, rest, i - 1, j - 1);
      }
    }
  }

  lemma UnlockedAt(t: LockTable, have: set<Gpu>, ids: seq<Gpu>, i: nat)
    requires i < |Unlocked(t, have, ids)|
    ensures Unlocked(t, have, ids)[i] !in have && !Blocked(t, Unlocked(t, have, ids)[i])
  {
    UnlockedIs(t, have, ids);
    assert Unlocked(t, have, ids)[i] in IdSet(Unlocked(t, have, ids));
  }

  lemma {:induction false} SameUnlocked(t: LockTable, u: LockTable, have: set<Gpu>, ids: seq<Gpu>)
    requires forall g :: g !in have ==> (Blocked(t, g) <==> Blocked(u, g))
    ensures Unlocked(t, have, ids) == Unlocked(u, have, ids)
    decreases |ids|
  {
    if ids != [] {
      SameUnlocked(t, u, have, ids[1..]);
      SameUnlocked(t, u, have + {ids[0]}, ids[1..]);
    }
  }

  lemma InIdSet(ids: seq<Gpu>, g: Gpu)
    ensures g in IdSet(ids) <==> g in ids
  {
  }

  /** One GPU that nobody has locked. */
  lemma FreeAttemptGrows(r: Shared, c: Call, g: Gpu)
    requires Consistent(r.locks) && !Blocked(r.locks, g)
    ensures var (r1, c1) := Attempt(r, c, g);
      Grown(r, c, [g], r1, c1) && Consistent(r1.locks) && |c1.taken| == |c.taken| + 1 && Blocked(r1.locks, g)
      && IdSet(TakenGpus(c1)) == IdSet(TakenGpus(c)) + {g}
      && forall h :: h != g ==> (Blocked(r1.locks, h) <==> Blocked(r.locks, h))
  {
    FreeAttempt(r, c, g);
    var (r1, c1) := Attempt(r, c, g);
    assert TakenGpus(c1) == TakenGpus(c) + [g];
    forall x ensures x in IdSet(TakenGpus(c1)) <==> x in IdSet(TakenGpus(c)) + {g} {
      InIdSet(TakenGpus(c1), x);
      InIdSet(TakenGpus(c), x);
    }
  }

  lemma GrownTwice(r: Shared, c: Call, g: Gpu, r1: Shared, c1: Call, more: seq<Gpu>, r2: Shared, c2: Call)
    requires Grown(r, c, [g], r1, c1) && Grown(r1, c1, more, r2, c2) && g !in more
    ensures Grown(r, c, [g] + more, r2, c2)
  {
    assert TakenGpus(c) + [g] + more == TakenGpus(c) + ([g] + more);
    assert |c1.taken| == |c.taken| + 1 by { assert |TakenGpus(c1)| == |TakenGpus(c)| + 1; }
    var t := c1.taken[|c.taken|];
    assert c2.taken[|c.taken|..] == [t] + c2.taken[|c1.taken|..];
    assert t in c1.taken[|c.taken|..];
    assert TakenGpus(c1)[|c.taken|] == t.gpu == g;
    assert Owner(r2.locks, g) == Owner(r1.locks, g) && Entry(r2, Key(c.session, g)) == Entry(r1, Key(c.session, g));
    HoldingByLooks(r1, r2, c.session, t);
  }

  lemma HoldingByLooks(r: Shared, r': Shared, session: SessionId, t: Taken)
    requires Holding(r, session, t)
    requires Owner(r'.locks, t.gpu) == Owner(r.locks, t.gpu) &&
        Entry(r', Key(session, t.gpu)) == Entry(r, Key(session, t.gpu))
    ensures Holding(r', session, t)
  {
    assert r.locks.owner[t.gpu] in Owner(r'.locks, t.gpu);
    assert r.registry[Key(session, t.gpu)] in Entry(r', Key(session, t.gpu));
  }

  lemma OnlyUnlocked(t: LockTable, have: set<Gpu>, ids: seq<Gpu>, n: int, g: Gpu)
    requires g in UpTo(n, Unlocked(t, have, ids))
    ensures g in ids && g !in have && !Blocked(t, g)
  {
    UnlockedIs(t, have, ids);
    InIdSet(Unlocked(t, have, ids), g);
  }

  /** The list grows by the first unlocked ids. */
  lemma {:induction false} PassGrows(r: Shared, c: Call, ids: seq<Gpu>)
    requires Consistent(r.locks)
    ensures var (r', c') := PassOver(r, c, ids);
      Grown(r, c, UpTo(c.want - |c.taken|, Unlocked(r.locks, IdSet(TakenGpus(c)), ids)), r', c')
    decreases |ids|, 1
  {
    var have := IdSet(TakenGpus(c));
    if ids == [] || |c.taken| >= c.want {
      assert UpTo(c.want - |c.taken|, Unlocked(r.locks, have, ids)) == [];
      assert TakenGpus(c) + [] == TakenGpus(c);
    } else {
      var g, rest := ids[0], ids[1..];
      InIdSet(TakenGpus(c), g);
      if g in TakenGpus(c) {
        PassGrows(r, c, rest);
      } else if Blocked(r.locks, g) {
        PassGrowsPastBlocked(r, c, ids);
      } else {
        PassGrowsByFree(r, c, ids);
      }
    }
  }

  lemma {:induction false} PassGrowsPastBlocked(r: Shared, c: Call, ids: seq<Gpu>)
    requires Consistent(r.locks) && ids != [] && |c.taken| < c.want
    requires ids[0] !in TakenGpus(c) && Blocked(r.locks, ids[0])
    ensures var (r', c') := PassOver(r, c, ids);
      Grown(r, c, UpTo(c.want - |c.taken|, Unlocked(r.locks, IdSet(TakenGpus(c)), ids)), r', c')
    decreases |ids|, 0
  {
    var g, rest := ids[0], ids[1..];
    BlockedAttempt(r, c, g);
    var r1 := r.(locks := r.locks.(next := r.locks.next + 1));
    PassGrows(r1, c, rest);
    SameUnlocked(r.locks, r1.locks, IdSet(TakenGpus(c)), rest);
  }

  lemma {:induction false} PassGrowsByFree(r: Shared, c: Call, ids: seq<Gpu>)
    requires Consistent(r.locks) && ids != [] && |c.taken| < c.want
    requires ids[0] !in TakenGpus(c) && !Blocked(r.locks, ids[0])
    ensures var (r', c') := PassOver(r, c, ids);
      Grown(r, c, UpTo(c.want - |c.taken|, Unlocked(r.locks, IdSet(TakenGpus(c)), ids)), r', c')
    decreases |ids|, 0
  {
    var g, rest, have := ids[0], ids[1..], IdSet(TakenGpus(c));
    var (r1, c1) := Attempt(r, c, g);
    var (r2, c2) := PassOver(r1, c1, rest);
    FreeAttemptGrows(r, c, g);
    PassGrows(r1, c1, rest);
    SameUnlocked(r.locks, r1.locks, have + {g}, rest);
    var tail := Unlocked(r.locks, have + {g}, rest);
    InIdSet(TakenGpus(c), g);
    assert Unlocked(r.locks, have, ids) == [g] + tail;
    assert UpTo(c.want - |c.taken|, [g] + tail) == [g] + UpTo(c.want - |c1.taken|, tail);
    if g in UpTo(c.want - |c1.taken|, tail) {
      OnlyUnlocked(r.locks, have + {g}, rest, c.want - |c1.taken|, g);
    }
    GrownTwice(r, c, g, r1, c1, UpTo(c.want - |c1.taken|, tail), r2, c2);
  }

  lemma PassTakesFree(r: Shared, c: Call, ids: seq<Gpu>)
    ensures var (r', c') := PassOver(r, c, ids); Consistent(r.locks) ==> PassTakes(r, c, ids, r', c')
  {
    if Consistent(r.locks) {
      var (r', c') := PassOver(r, c, ids);
      var have := IdSet(TakenGpus(c));
      var free := Unlocked(r.locks, have, ids);
      PassGrows(r, c, ids);
      UnlockedIs(r.locks, have, ids);
      var added := UpTo(c.want - |c.taken|, free);
      assert |c'.taken| == |c.taken| + |added| by { assert |TakenGpus(c')| == |TakenGpus(c)| + |added|; }
      if |c'.taken| < c.want {
        assert added == free;
        forall g | g in ids ensures g in TakenGpus(c') || Blocked(r.locks, g) {
          InIdSet(TakenGpus(c), g);
          InIdSet(free, g);
          assert g in FreeSet(r.locks, have, ids) || g in have || Blocked(r.locks, g);
        }
      }
    }
  }

  // ---------------------------------------------------------------- counting

  function Available(r: Shared, ids: seq<Gpu>): int {
    var free := |ids| - |Registered(r)|;
    if free > 0 then free else 0
  }

  function IdSet(ids: seq<Gpu>): set<Gpu> {
    set i | 0 <= i < |ids| :: ids[i]
  }

  lemma {:induction false} IdSetSize(ids: seq<Gpu>)
    ensures |IdSet(ids)| <= |ids|
    ensures |IdSet(ids)| == |ids| <==> forall i, j :: 0 <= i < j < |ids| ==> ids[i] != ids[j]
  {
    if ids == [] {
      assert IdSet(ids) == {};
    } else {
      var rest := ids[..|ids| - 1];
      var last := ids[|ids| - 1];
      IdSetSize(rest);
      assert IdSet(ids) == IdSet(rest) + {last};
      if last in IdSet(rest) {
        assert IdSet(ids) == IdSet(rest);
      }
    }
  }

  lemma SubsetSize<T>(a: set<T>, b: set<T>)
    requires a <= b
    ensures |a| <= |b| && |b - a| == |b| - |a|
  {
    assert b == a + (b - a);
  }

  /** The lock file of a registered GPU is gone when the ids are discovered again. */
  ghost predicate Drops(s: System, step: Step) {
    step.Refresh? && exists k :: k in s.shared.registry && k.gpu !in step.found
  }

  lemma KnownAfterIff(s: System, step: Step)
    requires Known(s)
    ensures Known(Do(s, step)) <==> !Drops(s, step)
  {
  }

  ghost predicate NeverDrops(s: System, steps: seq<Step>)
    decreases |steps|
  {
    steps == [] || (!Drops(s, steps[0]) && NeverDrops(Do(s, steps[0]), steps[1..]))
  }

  lemma {:induction false} KnownThroughout(s: System, steps: seq<Step>)
    requires Known(s) && NeverDrops(s, steps)
    ensures Known(Run(s, steps))
    decreases |steps|
  {
    if steps != [] {
      KnownAfterIff(s, steps[0]);
      KnownThroughout(Do(s, steps[0]), steps[1..]);
    }
  }

  /** While everything registered is known, the clamp of the availability count never acts,
      and the count is the number of unregistered GPUs exactly when the ids are distinct. */
  lemma AvailableIsExact(s: System)
    requires Known(s)
    ensures Available(s.shared, s.ids) == |s.ids| - |Registered(s.shared)|
    ensures Available(s.shared, s.ids) == |IdSet(s.ids) - Registered(s.shared)|
            <==> forall i, j :: 0 <= i < j < |s.ids| ==> s.ids[i] != s.ids[j]
  {
    var reg, all := Registered(s.shared), IdSet(s.ids);
    assert reg <= all by {
      forall g | g in reg ensures g in all {
        var k :| k in s.shared.registry && k.gpu == g;
        assert k.gpu in s.ids;
      }
    }
    IdSetSize(s.ids);
    SubsetSize(reg, all);
  }

  /** After any discovery at all, of distinct ids, it is that number if and only if
      everything registered is known or everything known is registered. */
  lemma AvailableIsExactIff(r: Shared, ids: seq<Gpu>)
    requires forall i, j :: 0 <= i < j < |ids| ==> ids[i] != ids[j]
    ensures Available(r, ids) == |IdSet(ids) - Registered(r)|
            <==> Registered(r) <= IdSet(ids) || IdSet(ids) <= Registered(r)
  {
    IdSetSize(ids);
    DifferenceIsExactIff(IdSet(ids), Registered(r));
  }

  lemma DifferenceIsExactIff(all: set<Gpu>, reg: set<Gpu>)
    ensures (if |all| > |reg| then |all| - |reg| else 0) == |all - reg| <==> reg <= all || all <= reg
  {
    var both := reg * all;
    SubsetSize(both, all);
    SubsetSize(both, reg);
    assert all - reg == all - both;
    if reg <= all { assert both == reg; }
    if all <= reg { assert both == all; }
    if |both| == |reg| { SameSize(both, reg); }
    if |both| == |all| { SameSize(both, all); }
  }

  /** It happens: the lock file of a registered GPU disappears, the other GPU is free, and
      the count is 0. */
  lemma RediscoveryMiscounts(session: SessionId)
    ensures var s := Run(Initial([0, 1]), [Start(1, session, 1), TryGpu(1, 0), Refresh([1])]);
      && Registered(s.shared) == {0} && IdSet(s.ids) - Registered(s.shared) == {1}
      && Available(s.shared, s.ids) == 0
  {
    RunOfThree(Initial([0, 1]), Start(1, session, 1), TryGpu(1, 0), Refresh([1]));
    var s1 := Do(Initial([0, 1]), Start(1, session, 1));
    assert s1.calls[1] == Call(session, 1, []) && MayTry(s1, 1, 0);
    FreeAttempt(s1.shared, s1.calls[1], 0);
    var s := Do(Do(s1, TryGpu(1, 0)), Refresh([1]));
    assert s.shared.registry == map[Key(session, 0) := 0];
    assert Registered(s.shared) == {0} by { assert Key(session, 0) in s.shared.registry; }
    assert [1][0] in IdSet([1]) && IdSet([1]) == {1};
  }

  lemma SameSize<T>(a: set<T>, b: set<T>)
    requires a <= b && |a| == |b|
    ensures a == b
  {
    SubsetSize(a, b);
    assert b - a == {};
  }

  // ---------------------------------------------------------------- all or nothing

  /** Everything call `n` has taken is registered to its session and locked by it. */
  ghost predicate HoldsAll(s: System, n: nat)
    requires n in s.calls
  {
    forall t :: t in s.calls[n].taken ==> Holding(s.shared, s.calls[n].session, t)
  }

  /** Nobody releases the session and the call itself does not end. */
  predicate Undisturbed(step: Step, n: nat, session: SessionId) {
    && !(step.Release? && step.session == session)
    && !((step.Return? || step.TimeOut? || step.Cancel?) && step.n == n)
  }

  lemma {:induction false} UndisturbedCallHoldsAll(s: System, steps: seq<Step>, n: nat)
    requires Sound(s) && NeverLoses(s, steps)
    requires n in s.calls && HoldsAll(s, n)
    requires forall i :: 0 <= i < |steps| ==> Undisturbed(steps[i], n, s.calls[n].session)
    ensures n in Run(s, steps).calls && HoldsAll(Run(s, steps), n)
    ensures Run(s, steps).calls[n].session == s.calls[n].session && Run(s, steps).calls[n].want == s.calls[n].want
    decreases |steps|
  {
    if steps != [] {
      var s' := Do(s, steps[0]);
      StepKeepsSound(s, steps[0]);
      StepKeepsHolding(s, steps[0], n);
      UndisturbedCallHoldsAll(s', steps[1..], n);
    }
  }

  lemma StepKeepsHolding(s: System, step: Step, n: nat)
    requires Sound(s) && !Loses(s, step)
    requires n in s.calls && HoldsAll(s, n) && Undisturbed(step, n, s.calls[n].session)
    ensures n in Do(s, step).calls && HoldsAll(Do(s, step), n)
    ensures Do(s, step).calls[n].session == s.calls[n].session && Do(s, step).calls[n].want == s.calls[n].want
  {
    var s', c := Do(s, step), s.calls[n];
    match step
    case Release(session) =>
      forall t | t in c.taken ensures Holding(s'.shared, c.session, t) {
        assert Holding(s.shared, c.session, t);
        ReleaseSparesOthers(s.shared, session, c.session, t);
      }
    case TimeOut(m) =>
      if m in s.calls && |s.calls[m].taken| < s.calls[m].want {
        forall t | t in c.taken ensures Holding(s'.shared, c.session, t) {
          assert Holding(s.shared, c.session, t);
          TimeOutSparesWaiting(s, m, n, t);
        }
      }
    case TryGpu(m, g) => if MayTry(s, m, g) { AttemptKeepsHolding(s, m, g, n); }
    case Return(m) => if m in s.calls { ForgettingChangesNothing(s, m); }
    case Cancel(m) => if m in s.calls { ForgettingChangesNothing(s, m); }
    case _ =>
  }

  lemma AttemptKeepsHolding(s: System, m: nat, g: Gpu, n: nat)
    requires Sound(s) && MayTry(s, m, g) && n in s.calls && HoldsAll(s, n)
    ensures HoldsAll(Do(s, TryGpu(m, g)), n)
  {
    forall t | t in s.calls[n].taken ensures Holding(Do(s, TryGpu(m, g)).shared, s.calls[n].session, t) {
      assert Holding(s.shared, s.calls[n].session, t);
    }
  }

  lemma TimeOutSparesWaiting(s: System, m: nat, n: nat, t: Taken)
    requires Sound(s) && !Loses(s, TimeOut(m)) && TimesOut(s, TimeOut(m)) && n in s.calls && n != m
    requires t in s.calls[n].taken && Holding(s.shared, s.calls[n].session, t)
    ensures Holding(Do(s, TimeOut(m)).shared, s.calls[n].session, t)
  {
    var c, key := s.calls[m], Key(s.calls[n].session, t.gpu);
    ElsewhereIs(s, m, n);
    assert t.fd in TakenFds(s.calls[n]);
    forall u | u in c.taken ensures Key(c.session, u.gpu) != key {
      var i :| 0 <= i < |c.taken| && c.taken[i] == u;
    }
  }

  predicate Holding(r: Shared, session: SessionId, t: Taken) {
    && Key(session, t.gpu) in r.registry && r.registry[Key(session, t.gpu)] == t.fd
    && t.gpu in r.locks.owner && r.locks.owner[t.gpu] == Mine(t.fd)
  }

  lemma ReleaseSparesOthers(r: Shared, session: SessionId, other: SessionId, t: Taken)
    requires Consistent(r.locks) && Accounted(r) && other != session && Holding(r, other, t)
    ensures Holding(Released(r, session), other, t)
  {
    assert r.locks.open[t.fd] == t.gpu;
    forall k | k in KeysOf(r, session) ensures r.registry[k] != t.fd {
      assert r.locks.open[r.registry[k]] == k.gpu;
    }
  }

  /** A call that runs to completion without its session being released returns exactly as
      many GPUs as it wanted: distinct, registered to it, locked by it, and still known unless
      a discovery has dropped a registered one. */
  lemma AcquireReturnsWhatItHolds(s: System, n: nat, session: SessionId, want: nat, steps: seq<Step>)
    requires Sound(s) && NeverLoses(Do(s, Start(n, session, want)), steps)
    requires n !in s.calls && 0 < want <= |s.ids|
    requires forall i :: 0 <= i < |steps| ==> Undisturbed(steps[i], n, session)
    ensures var s1 := Do(s, Start(n, session, want));
      var s' := Run(s1, steps);
      && n in s'.calls
      && (|s'.calls[n].taken| >= want ==>
            && |TakenGpus(s'.calls[n])| == |IdSet(TakenGpus(s'.calls[n]))| == want
            && (forall t :: t in s'.calls[n].taken ==> Holding(s'.shared, session, t))
            && (Known(s) && NeverDrops(s1, steps) ==> forall t :: t in s'.calls[n].taken ==> t.gpu in s'.ids))
  {
    var s1 := Do(s, Start(n, session, want));
    StepKeepsSound(s, Start(n, session, want));
    UndisturbedCallHoldsAll(s1, steps, n);
    EveryRunIsAccountedIff(s1, steps);
    var c := Run(s1, steps).calls[n];
    if |c.taken| >= want {
      TakenAreDistinct(Run(s1, steps), n);
    }
    if Known(s) && NeverDrops(s1, steps) {
      KnownThroughout(s1, steps);
    }
  }

  lemma TakenAreDistinct(s: System, n: nat)
    requires Sound(s) && n in s.calls && |s.calls[n].taken| > 0
    ensures |TakenGpus(s.calls[n])| == |IdSet(TakenGpus(s.calls[n]))| <= s.calls[n].want
  {
    assert CallOk(s.shared, s.calls[n]);
    IdSetSize(TakenGpus(s.calls[n]));
  }

  /** A time-out pops exactly the call's keys and takes nothing from other sessions or other
      processes; what it pops is exactly what it took if and only if no other call of the
      session has registered one of those GPUs since. */
  lemma TimeOutReturnsOnlyItsOwn(s: System, n: nat)
    requires Sound(s) && TimesOut(s, TimeOut(n))
    ensures var r, r', c := s.shared, Do(s, TimeOut(n)).shared, s.calls[n];
      && (forall k :: k in r.registry && k.session != c.session ==>
            k in r'.registry && k.gpu in r'.locks.owner && r'.locks.owner[k.gpu] == r.locks.owner[k.gpu])
      && (forall k :: k in r'.registry <==> k in r.registry && k !in TakenKeys(c))
      && (forall g :: g in r.locks.owner && r.locks.owner[g].Outside? ==>
            g in r'.locks.owner && r'.locks.owner[g] == r.locks.owner[g])
      && ((forall k :: k in r'.registry <==> k in r.registry && r.registry[k] !in TakenFds(c)) <==>
          !Strays(s, TimeOut(n)))
  {
    var r, c := s.shared, s.calls[n];
    var r' := Do(s, TimeOut(n)).shared;
    forall k | k in r.registry && k.session != c.session
      ensures r.registry[k] !in TakenFds(c) + Orphans(r, c, Elsewhere(s, n))
    {
      if r.registry[k] in TakenFds(c) { TakenIsOwn(r, c, k); }
      forall k' | k' in TakenKeys(c) && k' in r.registry ensures r.registry[k'] != r.registry[k] {
        assert r.locks.open[r.registry[k']] == k'.gpu && r.locks.open[r.registry[k]] == k.gpu;
      }
    }
    forall k | k in r.registry && r.registry[k] in TakenFds(c) ensures k in TakenKeys(c) {
      TakenIsOwn(r, c, k);
    }
    StraysIff(s, n);
  }

  lemma StraysIff(s: System, n: nat)
    requires Sound(s) && TimesOut(s, TimeOut(n))
    ensures var r, c := s.shared, s.calls[n];
      Strays(s, TimeOut(n)) <==> exists k :: k in TakenKeys(c) && k in r.registry && r.registry[k] !in TakenFds(c)
  {
    var r, c := s.shared, s.calls[n];
    assert CallOk(r, c);
    if Strays(s, TimeOut(n)) {
      var i :| 0 <= i < |c.taken| && Key(c.session, c.taken[i].gpu) in r.registry
               && r.registry[Key(c.session, c.taken[i].gpu)] != c.taken[i].fd;
      var key := Key(c.session, c.taken[i].gpu);
      assert c.taken[i] in c.taken && key in TakenKeys(c);
      forall t | t in c.taken ensures t.fd != r.registry[key] {
        var j :| 0 <= j < |c.taken| && c.taken[j] == t;
        assert r.locks.open[r.registry[key]] == key.gpu;
        assert t.gpu == key.gpu ==> j == i;
      }
    }
    if k :| k in TakenKeys(c) && k in r.registry && r.registry[k] !in TakenFds(c) {
      var t :| t in c.taken && Key(c.session, t.gpu) == k;
      var i :| 0 <= i < |c.taken| && c.taken[i] == t;
      assert r.registry[Key(c.session, c.taken[i].gpu)] != c.taken[i].fd by { assert c.taken[i].fd in TakenFds(c); }
    }
  }

  // ---------------------------------------------------------------- passes are runs

  /** A polling pass is one of the interleavings above: a sequence of attempts by its own
      call and by nobody else. */
  lemma {:induction false} PassIsARun(s: System, n: nat, ids: seq<Gpu>) returns (steps: seq<Step>)
    requires n in s.calls && forall g :: g in ids ==> g in s.ids
    ensures forall i :: 0 <= i < |steps| ==> steps[i].TryGpu? && steps[i].n == n
    ensures var (r, c) := PassOver(s.shared, s.calls[n], ids);
      Run(s, steps) == s.(shared := r, calls := s.calls[n := c])
    decreases |ids|
  {
    if ids == [] || |s.calls[n].taken| >= s.calls[n].want {
      steps := [];
      assert s.calls == s.calls[n := s.calls[n]];
    } else if ids[0] in TakenGpus(s.calls[n]) {
      steps := PassIsARun(s, n, ids[1..]);
    } else {
      var first := TryGpu(n, ids[0]);
      assert ids[0] in ids;
      var s1 := Do(s, first);
      var rest := PassIsARun(s1, n, ids[1..]);
      steps := [first] + rest;
      assert steps[1..] == rest;
      var (r, c) := PassOver(s1.shared, s1.calls[n], ids[1..]);
      assert s1.calls[n := c] == s.calls[n := c];
    }
  }

  /** A call is let in exactly when it asks for something and for no more than there is, even if
      that is everything; and one pass then completes it exactly when enough GPUs are unlocked. */
  lemma AcquireSucceedsIff(s: System, n: nat, session: SessionId, want: int)
    requires Sound(s) && n !in s.calls
    ensures n in Do(s, Start(n, session, want)).calls <==> want <= |s.ids| && want != 0
    ensures n !in Do(s, Start(n, session, want)).calls ==> Do(s, Start(n, session, want)) == s
    ensures n in Do(s, Start(n, session, want)).calls ==>
              var s1 := Do(s, Start(n, session, want));
              && s1.shared == s.shared && s1.calls[n] == Call(session, want, [])
              && (|PassOver(s1.shared, s1.calls[n], s1.ids).1.taken| >= want
                  <==> |set g | g in s.ids && !Blocked(s.shared.locks, g)| >= want)
  {
    var s1 := Do(s, Start(n, session, want));
    if n in s1.calls {
      PassTakesFree(s1.shared, s1.calls[n], s1.ids);
      assert FreeSet(s.shared.locks, IdSet([]), s.ids) == set g | g in s.ids && !Blocked(s.shared.locks, g);
      assert TakenGpus(s1.calls[n]) == [];
    }
  }
}
