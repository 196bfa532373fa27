/** The life of sessions on one server with no S3 storage: create, fork build, pause, resume,
    terminate, cleanup and restart, each call as one transition.  A transition is given by
    its net effect on what the server keeps about one session; SessionManager has the code
    that gets there step by step. */
module Lifecycle {
  import opened Options
  import opened Sessions
  import G = GpuAllocator

  /** The live registry, the session files, the GPU registry and the running fork builds. */
  datatype Server = Server(sessions: map<SessionId, Session>, disk: map<SessionId, File>,
                           held: map<Gpu, SessionId>, builds: set<SessionId>, limit: nat)

  /** Everything a server keeps about one session. */
  datatype Cell = Cell(memory: Option<Session>, file: Option<File>, gpus: set<Gpu>, building: bool)

  const Nothing := Cell(None, None, {}, false)

  function Get<K, V>(m: map<K, V>, k: K): Option<V> {
    if k in m then Some(m[k]) else None
  }

  function With<K, V>(m: map<K, V>, k: K, v: Option<V>): map<K, V> {
    if v.Some? then m[k := v.value] else m - {k}
  }

  function HeldBy(held: map<Gpu, SessionId>, id: SessionId): set<Gpu> {
    set g | g in held && held[g] == id
  }

  function Without(held: map<Gpu, SessionId>, id: SessionId): map<Gpu, SessionId> {
    map g | g in held && held[g] != id :: held[g]
  }

  function Hand(held: map<Gpu, SessionId>, id: SessionId, gpus: set<Gpu>): map<Gpu, SessionId> {
    Without(held, id) + map g | g in gpus :: id
  }

  function At(s: Server, id: SessionId): Cell {
    Cell(Get(s.sessions, id), Get(s.disk, id), HeldBy(s.held, id), id in s.builds)
  }

  function Put(s: Server, id: SessionId, c: Cell): Server {
    Server(With(s.sessions, id, c.memory), With(s.disk, id, c.file), Hand(s.held, id, c.gpus),
           if c.building then s.builds + {id} else s.builds - {id}, s.limit)
  }

  // ---------------------------------------------------------------- the operations

  /** How launching the terminal ends: it runs, TerminalError, no ttyd on this host, or any
      other exception at or after that point. */
  datatype Launch = Started | Refused | NoTtyd | Raises

  /** The sizes the request model lets through. */
  type TpSize = n: int | 1 <= n <= 8 witness 1

  /** `grant` is what the allocator would hand over; None when it times out. */
  datatype Op =
    | Create(id: SessionId, owner: Option<string>, requested: nat, tp: Option<TpSize>, ready: bool,
             grant: Option<seq<Gpu>>, launch: Launch, erased: bool)
    | Fork(id: SessionId, owner: Option<string>, requested: nat, tp: Option<TpSize>, ready: bool,
           grant: Option<seq<Gpu>>, spawned: bool)
    | BuildEnds(id: SessionId, ok: bool)
    | Pause(id: SessionId)
    | Resume(id: SessionId, ready: bool, grant: Option<seq<Gpu>>, launch: Launch)
    | Terminate(id: SessionId)
    | Cleanup(stale: set<SessionId>)
    | Restart

  predicate Usable(taken: set<Gpu>, requested: nat, gpus: seq<Gpu>) {
    && |gpus| == requested
    && (forall i, j :: 0 <= i < j < |gpus| ==> gpus[i] != gpus[j])
    && (forall i :: 0 <= i < |gpus| ==> gpus[i] !in taken)
  }

  /** What acquiring gives; a grant nobody could have made counts as a time-out. */
  function Acquired(taken: set<Gpu>, requested: nat, grant: Option<seq<Gpu>>): (r: Option<seq<Gpu>>)
    ensures r.Some? ==> Usable(taken, requested, r.value)
  {
    if requested == 0 then Some([])
    else if grant.Some? && Usable(taken, requested, grant.value) then grant
    else None
  }

  function NewSession(status: Status, gpuIds: seq<Gpu>, requested: nat, tp: Option<TpSize>,
      owner: Option<string>): Session {
    Session(status, gpuIds, requested, if tp.Some? then tp.value else requested, owner)
  }

  function FileOf(s: Session): Option<File> {
    Some(Doc(ToDict(s)))
  }

  function Stored(s: Session, gpus: set<Gpu>, building: bool): Cell {
    Cell(Some(s), FileOf(s), gpus, building)
  }

  function Created(taken: set<Gpu>, op: Op): Cell
    requires op.Create?
  {
    var got := if op.ready then Acquired(taken, op.requested, op.grant) else None;
    var s := NewSession(Failed, if got.Some? then got.value else [], op.requested, op.tp, op.owner);
    if got.None? || op.launch.Raises? then Stored(s, {}, false).(file := if op.erased then None else FileOf(s))
    else match op.launch
      case Started => Stored(s.(status := Active), G.IdSet(got.value), false)
      case Refused => Stored(s.(gpuIds := []), {}, false)
      case NoTtyd => Stored(s, G.IdSet(got.value), false)
  }

  function Forked(taken: set<Gpu>, op: Op): Cell
    requires op.Fork?
  {
    var got := if op.ready then Acquired(taken, op.requested, op.grant) else None;
    if got.None? then Nothing
    else
      var s := NewSession(Building, got.value, op.requested, op.tp, op.owner);
      if op.spawned then Stored(s, G.IdSet(got.value), true) else Cell(None, FileOf(s), {}, false)
  }

  function Resumed(c: Cell, taken: set<Gpu>, op: Op): Cell
    requires op.Resume? && c.memory.Some?
  {
    var s := c.memory.value;
    if s.status != Paused || !op.ready then c
    else
      var got := Acquired(taken, s.requested, op.grant);
      var gpuIds := if got.Some? && s.requested > 0 then got.value else s.gpuIds;
      if got.None? || op.launch.Raises? then Stored(s.(gpuIds := []), {}, c.building)
      else match op.launch
        case Refused => Stored(s.(gpuIds := []), if gpuIds == [] then c.gpus else {}, c.building)
        case Started => Stored(s.(status := Active, gpuIds := gpuIds), c.gpus + G.IdSet(got.value), c.building)
        case NoTtyd => Stored(s.(gpuIds := gpuIds), c.gpus + G.IdSet(got.value), c.building)
  }

  function BuildEnded(c: Cell, ok: bool): Cell {
    if !c.building || c.memory.None? || (ok && c.memory.value.status == Terminated) then c.(building := false)
    else if ok then Stored(c.memory.value.(status := Active), c.gpus, false)
    else
      Stored(c.memory.value.(status := Failed, gpuIds := []), if c.memory.value.gpuIds == [] then c.gpus else {}, false)
  }

  function Ended(c: Cell): Cell
    requires c.memory.Some?
  {
    Cell(None, FileOf(c.memory.value.(status := Terminated, gpuIds := if c.building then []
        else c.memory.value.gpuIds)), {}, false)
  }

  /** What is kept about the session an operation names, afterwards. */
  function Next(c: Cell, taken: set<Gpu>, op: Op): Cell
    requires !op.Cleanup? && !op.Restart?
  {
    match op
    case Create(_, _, _, _, _, _, _, _) => Created(taken, op)
    case Fork(_, _, _, _, _, _, _) => Forked(taken, op)
    case BuildEnds(_, ok) => BuildEnded(c, ok)
    case Pause(_) =>
      if c.memory.Some? && c.memory.value.status == Active
      then Stored(c.memory.value.(status := Paused), {}, c.building) else c
    case Resume(_, _, _, _) => if c.memory.Some? then Resumed(c, taken, op) else c
    case Terminate(_) => if c.memory.Some? then Ended(c) else c
  }

  predicate Live(s: Session) {
    s.status !in {Terminated, Failed, Paused}
  }

  function LiveOf(s: Server, owner: Option<string>): set<SessionId> {
    set id | id in s.sessions && s.sessions[id].owner == owner && Live(s.sessions[id])
  }

  /** Creating takes an id no session ever had, and an owner below the limit. */
  predicate Admitted(s: Server, op: Op) {
    op.Create? || op.Fork? ==> At(s, op.id) == Nothing && |LiveOf(s, op.owner)| < s.limit
  }

  // ---------------------------------------------------------------- restart and cleanup

  /** What loading a file puts into the live registry. */
  function Revived(f: File): Option<Session> {
    if f.Doc? && f.saved.status in {Creating, Active, Paused} then Some(FromDict(f.saved).(status := Paused)) else None
  }

  /** What loading leaves on disk. */
  function Reloaded(f: File): File {
    if f.Corrupt? then f
    else match f.saved.status
      case Building => Doc(ToDict(FromDict(f.saved).(status := Failed, gpuIds := [])))
      case Creating => Doc(ToDict(FromDict(f.saved).(status := Paused)))
      case Active => Doc(ToDict(FromDict(f.saved).(status := Paused)))
      case Paused => f
      case Terminated => f
      case Failed => f
  }

  /** The files after loading those of `done` only. */
  function ReloadedSome(disk: map<SessionId, File>, done: set<SessionId>): map<SessionId, File> {
    map id | id in disk :: if id in done then Reloaded(disk[id]) else disk[id]
  }

  function RevivedSome(disk: map<SessionId, File>, done: set<SessionId>): map<SessionId, Session> {
    map id | id in disk && id in done && Revived(disk[id]).Some? :: Revived(disk[id]).value
  }

  /** The process dies, and with it every file lock and build task; a new one loads the files. */
  function Restarted(s: Server): Server {
    Server(RevivedSome(s.disk, s.disk.Keys), ReloadedSome(s.disk, s.disk.Keys), map[], {}, s.limit)
  }

  function Sweepable(s: Server, stale: set<SessionId>): set<SessionId> {
    set id | id in s.sessions && id in stale && s.sessions[id].status in {Terminated, Failed}
  }

  function CleanedUp(s: Server, stale: set<SessionId>): Server {
    Forgotten(s, Sweepable(s, stale))
  }

  function Forgotten(s: Server, gone: set<SessionId>): Server {
    s.(sessions := s.sessions - gone, disk := s.disk - gone)
  }

  /** One transition; a refused call changes nothing. */
  function Do(s: Server, op: Op): Server {
    match op
    case Cleanup(stale) => CleanedUp(s, stale)
    case Restart => Restarted(s)
    case _ => if Admitted(s, op) then Put(s, op.id, Next(At(s, op.id), s.held.Keys, op)) else s
  }

  function Run(s: Server, ops: seq<Op>): Server
    decreases |ops|
  {
    if ops == [] then s else Run(Do(s, ops[0]), ops[1..])
  }

  function FirstBoot(disk: map<SessionId, File>, limit: nat): Server {
    Restarted(Server(map[], disk, map[], {}, limit))
  }

  // ---------------------------------------------------------------- the invariant

  /** What a session is owed: the GPUs it asked for while it builds or is active, none
      otherwise; and its file would bring back that very session. */
  ghost predicate CellOk(c: Cell) {
    match c.memory
    case None =>
      c.gpus == {} && !c.building && (c.file.Some? ==> Revived(c.file.value).None?)
    case Some(m) =>
      match m.status
      case Building => c.building && Holds(c, m) && Sized(m) && c.file == FileOf(m)
      case Active => !c.building && Holds(c, m) && Sized(m) && c.file == FileOf(m)
      case Paused =>
        !c.building && c.gpus == {} && Sized(m) && c.file.Some? && c.file.value.Doc?
        && c.file.value.saved.status == Paused && FromDict(c.file.value.saved) == m
      case Failed => !c.building && c.gpus == {} && (c.file.Some? ==> Revived(c.file.value).None?)
      case Creating => false
      case Terminated => false
  }

  ghost predicate Holds(c: Cell, m: Session) {
    && |c.gpus| == m.requested
    && (m.requested > 0 ==> c.gpus == G.IdSet(m.gpuIds) && |m.gpuIds| == m.requested)
  }

  ghost predicate Sound(s: Server) {
    forall id :: CellOk(At(s, id))
  }

  // ---------------------------------------------------------------- cells

  lemma HeldAfterHand(held: map<Gpu, SessionId>, id: SessionId, gpus: set<Gpu>, other: SessionId)
    requires forall g :: g in gpus ==> g !in held || held[g] == id
    ensures HeldBy(Hand(held, id, gpus), other) == if other == id then gpus else HeldBy(held, other)
  {
    if other == id {
      assert HeldBy(Hand(held, id, gpus), other) == gpus;
    } else {
      forall g ensures g in HeldBy(Hand(held, id, gpus), other) <==> g in HeldBy(held, other) {
        assert g in HeldBy(held, other) ==> g in Without(held, id) && g !in gpus;
      }
    }
  }

  /** The GPUs a cell takes over are its own or nobody's. */
  ghost predicate TakesOnlyFree(s: Server, id: SessionId, c: Cell) {
    forall g :: g in c.gpus ==> g !in s.held || s.held[g] == id
  }

  lemma AtAfterPut(s: Server, id: SessionId, c: Cell, other: SessionId)
    requires TakesOnlyFree(s, id, c)
    ensures At(Put(s, id, c), other) == if other == id then c else At(s, other)
  {
    HeldAfterHand(s.held, id, c.gpus, other);
  }

  lemma NextTakesOnlyFree(s: Server, op: Op)
    requires !op.Cleanup? && !op.Restart?
    ensures TakesOnlyFree(s, op.id, Next(At(s, op.id), s.held.Keys, op))
  {
  }

  /** Two servers that keep the same about every session are the same. */
  lemma SameCells(s: Server, t: Server)
    requires s.limit == t.limit && forall id :: At(s, id) == At(t, id)
    ensures s == t
  {
    forall id ensures (id in s.sessions <==> id in t.sessions) &&
        (id in s.sessions ==> s.sessions[id] == t.sessions[id])
                      && (id in s.disk <==> id in t.disk) && (id in s.disk ==> s.disk[id] == t.disk[id])
                      && (id in s.builds <==> id in t.builds) {
      assert At(s, id) == At(t, id);
    }
    forall g ensures (g in s.held <==> g in t.held) && (g in s.held ==> s.held[g] == t.held[g]) {
      if g in s.held {
        assert At(s, s.held[g]) == At(t, s.held[g]);
        assert g in HeldBy(s.held, s.held[g]);
      }
      if g in t.held {
        assert At(s, t.held[g]) == At(t, t.held[g]);
        assert g in HeldBy(t.held, t.held[g]);
      }
    }
    assert s.sessions == t.sessions && s.disk == t.disk && s.held == t.held && s.builds == t.builds;
  }

  // ---------------------------------------------------------------- every run is sound

  /** The launch is reached with GPUs in hand and there is no terminal to launch. */
  predicate Strands(s: Server, op: Op) {
    match op
    case Create(id, _, requested, _, ready, grant, launch, _) =>
      Admitted(s, op) && ready && launch.NoTtyd? && requested > 0 && Acquired(s.held.Keys, requested, grant).Some?
    case Resume(id, ready, grant, launch) =>
      id in s.sessions && s.sessions[id].status == Paused && ready && launch.NoTtyd?
      && s.sessions[id].requested > 0 && Acquired(s.held.Keys, s.sessions[id].requested, grant).Some?
    case _ => false
  }

  lemma NextCellOk(c: Cell, taken: set<Gpu>, op: Op)
    requires CellOk(c) && !op.Cleanup? && !op.Restart?
    requires op.Create? || op.Fork? ==> c == Nothing
    ensures op.Create? || op.Resume? || CellOk(Next(c, taken, op))
  {
    if op.Fork? && op.ready {
      CreatedIsSized(taken, op.requested, op.grant, op.tp, op.owner, Building);
    } else if op.BuildEnds? && c.memory.Some? {
      RoundTripIff(c.memory.value);
      if !op.ok && c.memory.value.gpuIds == [] {
        assert G.IdSet(c.memory.value.gpuIds) == {};
      }
    } else if op.Pause? && c.memory.Some? {
      RoundTripIff(c.memory.value.(status := Paused));
    }
  }

  lemma CreatedIsSized(taken: set<Gpu>, requested: nat, grant: Option<seq<Gpu>>, tp: Option<TpSize>,
      owner: Option<string>, status: Status)
    ensures var got := Acquired(taken, requested, grant);
            got.Some? ==>
              var s := NewSession(status, got.value, requested, tp, owner);
              Sized(s) && |G.IdSet(got.value)| == requested && FromDict(ToDict(s)) == s
  {
    var got := Acquired(taken, requested, grant);
    if got.Some? {
      G.IdSetSize(got.value);
      RoundTripIff(NewSession(status, got.value, requested, tp, owner));
    }
  }

  lemma CreateCellIff(s: Server, op: Op)
    requires op.Create? && Admitted(s, op)
    ensures CellOk(Created(s.held.Keys, op)) <==> !Strands(s, op)
  {
    CreatedIsSized(s.held.Keys, op.requested, op.grant, op.tp, op.owner, Failed);
  }

  lemma ResumeCellIff(s: Server, op: Op)
    requires op.Resume? && CellOk(At(s, op.id))
    ensures CellOk(Next(At(s, op.id), s.held.Keys, op)) <==> !Strands(s, op)
  {
    if op.id in s.sessions {
      var m := s.sessions[op.id];
      var got := Acquired(s.held.Keys, m.requested, op.grant);
      if m.status == Paused && got.Some? {
        G.IdSetSize(got.value);
        RoundTripIff(m.(gpuIds := got.value));
        RoundTripIff(m.(gpuIds := []));
        RoundTripIff(m);
      }
      RoundTripIff(m.(gpuIds := []));
    }
  }

  /** One operation keeps the invariant exactly when it does not strand GPUs. */
  lemma SoundAfterIff(s: Server, op: Op)
    requires Sound(s)
    ensures Sound(Do(s, op)) <==> !Strands(s, op)
  {
    if op.Restart? {
      RestartFromAnyDisk(s);
    } else if op.Cleanup? {
      forall id ensures CellOk(At(Do(s, op), id)) {
        assert CellOk(At(s, id));
      }
    } else if Admitted(s, op) {
      var c := Next(At(s, op.id), s.held.Keys, op);
      NextTakesOnlyFree(s, op);
      assert CellOk(At(s, op.id));
      NextCellOk(At(s, op.id), s.held.Keys, op);
      if op.Create? {
        CreateCellIff(s, op);
      } else if op.Resume? {
        ResumeCellIff(s, op);
      }
      forall id ensures At(Do(s, op), id) == if id == op.id then c else At(s, id) {
        AtAfterPut(s, op.id, c, id);
      }
      assert CellOk(c) == CellOk(At(Do(s, op), op.id));
    }
  }

  ghost predicate NeverStrands(s: Server, ops: seq<Op>)
    decreases |ops|
  {
    ops == [] || (!Strands(s, ops[0]) && NeverStrands(Do(s, ops[0]), ops[1..]))
  }

  ghost predicate AlwaysSound(s: Server, ops: seq<Op>)
    decreases |ops|
  {
    Sound(s) && (ops == [] || AlwaysSound(Do(s, ops[0]), ops[1..]))
  }

  /** Whatever the disk held at first boot: every session has exactly what it is owed at every
      moment of a run, if and only if no terminal-less launch strands GPUs. */
  lemma {:induction false} EveryRunIsSoundIff(s: Server, ops: seq<Op>)
    requires Sound(s)
    ensures AlwaysSound(s, ops) <==> NeverStrands(s, ops)
    ensures NeverStrands(s, ops) ==> Sound(Run(s, ops))
    decreases |ops|
  {
    if ops != [] {
      SoundAfterIff(s, ops[0]);
      if !Strands(s, ops[0]) {
        EveryRunIsSoundIff(Do(s, ops[0]), ops[1..]);
      } else {
        assert !AlwaysSound(Do(s, ops[0]), ops[1..]);
      }
    }
  }

  // ---------------------------------------------------------------- restart

  /** After a restart from any files whatsoever - a crash may have come at any point of any
      operation - every loaded session is paused, nothing is held, and the server is sound. */
  lemma RestartFromAnyDisk(s: Server)
    ensures Sound(Restarted(s))
    ensures forall id :: id in Restarted(s).sessions ==> Restarted(s).sessions[id].status == Paused
    ensures Restarted(s).held == map[] && Restarted(s).builds == {}
  {
    var t := Restarted(s);
    forall id ensures CellOk(At(t, id)) {
      if id in s.disk && s.disk[id].Doc? {
        LoadSettles(s.disk[id].saved);
      }
      assert HeldBy(t.held, id) == {};
    }
  }

  /** A restart brings back the paused and the active sessions and no other, each as it was
      but paused: same GPU request, same sizes, same owner. */
  lemma RestartKeepsExactly(s: Server)
    requires Sound(s)
    ensures Restarted(s).sessions == map id | id in s.sessions && s.sessions[id].status in {Active, Paused}
                                       :: s.sessions[id].(status := Paused)
  {
    var t := Restarted(s);
    forall id
      ensures id in t.sessions <==> id in s.sessions && s.sessions[id].status in {Active, Paused}
      ensures id in t.sessions ==> t.sessions[id] == s.sessions[id].(status := Paused)
    {
      assert CellOk(At(s, id));
      if id in s.sessions {
        RoundTripIff(s.sessions[id]);
      }
    }
  }

  lemma ReloadedOnce(f: File)
    ensures Reloaded(Reloaded(f)) == Reloaded(f)
    ensures Revived(Reloaded(f)) == Revived(f)
  {
    if f.Doc? {
      LoadSettles(f.saved);
    }
  }

  /** Dying again while loading, with any part of the files already rewritten, loses nothing. */
  lemma CrashWhileLoading(s: Server, done: set<SessionId>)
    ensures Restarted(s.(disk := ReloadedSome(s.disk, done))) == Restarted(s)
  {
    var torn := s.(disk := ReloadedSome(s.disk, done));
    forall id | id in s.disk
      ensures Reloaded(torn.disk[id]) == Reloaded(s.disk[id]) && Revived(torn.disk[id]) == Revived(s.disk[id])
    {
      ReloadedOnce(s.disk[id]);
    }
    assert Restarted(torn).disk == Restarted(s).disk;
    assert Restarted(torn).sessions == Restarted(s).sessions;
  }

  /** Restarting twice is restarting once. */
  lemma RestartTwice(s: Server)
    ensures Restarted(Restarted(s)) == Restarted(s)
  {
    CrashWhileLoading(s, s.disk.Keys);
    assert Restarted(Restarted(s)) == Restarted(s.(disk := Restarted(s).disk));
  }

  /** A file that loads alike may stand in for another. */
  lemma LoadsAlike(s: Server, t: Server, id: SessionId, f: File)
    requires id in s.disk && Reloaded(f) == Reloaded(s.disk[id]) && Revived(f) == Revived(s.disk[id])
    requires t.disk == s.disk[id := f] && t.limit == s.limit
    ensures Restarted(t) == Restarted(s)
  {
    assert t.disk.Keys == s.disk.Keys;
    assert Restarted(t).disk == Restarted(s).disk;
    assert Restarted(t).sessions == Restarted(s).sessions;
  }

  /** Pausing first makes no difference to what a restart leaves. */
  lemma PauseThenRestart(s: Server, id: SessionId)
    requires Sound(s)
    ensures Restarted(Do(s, Pause(id))) == Restarted(s)
  {
    assert CellOk(At(s, id));
    if id in s.sessions && s.sessions[id].status == Active {
      var m := s.sessions[id];
      RoundTripIff(m);
      RoundTripIff(m.(status := Paused));
      assert s.disk[id] == Doc(ToDict(m));
      LoadsAlike(s, Do(s, Pause(id)), id, Doc(ToDict(m.(status := Paused))));
    } else {
      AtIsStable(s, Pause(id));
    }
  }

  /** An operation that leaves a cell as it is leaves the server as it is. */
  lemma AtIsStable(s: Server, op: Op)
    requires !op.Cleanup? && !op.Restart? && Next(At(s, op.id), s.held.Keys, op) == At(s, op.id)
    ensures Do(s, op) == s
  {
    var c := At(s, op.id);
    forall id ensures At(Put(s, op.id, c), id) == At(s, id) {
      AtAfterPut(s, op.id, c, id);
    }
    SameCells(Put(s, op.id, c), s);
  }

  /** Loading settles every file: only paused, failed and terminated sessions are left on
      disk, a build that was under way is failed and lists no GPUs, and nothing else about a
      session is lost. */
  lemma RestartSettlesFiles(s: Server, id: SessionId)
    requires id in s.disk && s.disk[id].Doc?
    ensures id in Restarted(s).disk && Restarted(s).disk[id].Doc?
    ensures var was, now := s.disk[id].saved, Restarted(s).disk[id].saved;
      && now.status == (if was.status == Building then Failed else if was.status in {Active, Creating} then Paused
          else was.status)
      && FromDict(now) == FromDict(was).(status := now.status, gpuIds := if was.status == Building then []
          else FromDict(was).gpuIds)
  {
    LoadSettles(s.disk[id].saved);
    RoundTripIff(FromDict(s.disk[id].saved).(status := Failed, gpuIds := []));
    RoundTripIff(FromDict(s.disk[id].saved).(status := Paused));
  }

  /** A file that no load brings back, and no session of that id. */
  predicate Tombstone(s: Server, id: SessionId) {
    id !in s.sessions && id !in s.builds && id in s.disk && Revived(s.disk[id]).None?
  }

  lemma TerminateLeavesATombstone(s: Server, id: SessionId)
    requires id in s.sessions
    ensures Tombstone(Do(s, Terminate(id)), id) && HeldBy(Do(s, Terminate(id)).held, id) == {}
  {
    HeldAfter(s, Terminate(id), id);
    var t := Do(s, Terminate(id));
    assert Get(t.sessions, id) == At(t, id).memory && Get(t.disk, id) == At(t, id).file;
  }

  /** A terminated session never comes back, whatever happens and however often the server
      restarts; its tombstone stays on disk for good. */
  lemma {:induction false} TerminatedStaysGone(s: Server, id: SessionId, ops: seq<Op>)
    requires Tombstone(s, id)
    ensures Tombstone(Run(s, ops), id)
    decreases |ops|
  {
    if ops != [] {
      var t := Do(s, ops[0]);
      if ops[0].Restart? {
        ReloadedOnce(s.disk[id]);
      } else if !ops[0].Cleanup? && Admitted(s, ops[0]) {
        HeldAfter(s, ops[0], id);
        assert Get(t.sessions, id) == At(t, id).memory && Get(t.disk, id) == At(t, id).file;
        assert (id in t.builds) == At(t, id).building;
        assert At(s, id).file == Some(s.disk[id]) && At(s, id).memory == None;
      }
      TerminatedStaysGone(t, id, ops[1..]);
    }
  }

  /** Pausing an active session and resuming it on the same GPUs restores the server. */
  lemma PauseThenResume(s: Server, id: SessionId)
    requires Sound(s) && id in s.sessions && s.sessions[id].status == Active
    ensures Do(Do(s, Pause(id)), Resume(id, true, Some(s.sessions[id].gpuIds), Started)) == s
  {
    var m, c := s.sessions[id], At(s, id);
    assert CellOk(c);
    var t := Do(s, Pause(id));
    HeldAfter(s, Pause(id), id);
    var resume := Resume(id, true, Some(m.gpuIds), Started);
    G.IdSetSize(m.gpuIds);
    PauseFrees(s, id);
    assert m.requested > 0 ==> Usable(t.held.Keys, m.requested, m.gpuIds) by {
      forall i | 0 <= i < |m.gpuIds| && m.requested > 0 ensures m.gpuIds[i] !in t.held {
        assert m.gpuIds[i] in HeldBy(s.held, id);
      }
    }
    assert Next(At(t, id), t.held.Keys, resume) == c by {
      assert m.requested == 0 ==> c.gpus == {} && G.IdSet([]) == {};
    }
    forall other ensures At(Do(t, resume), other) == At(s, other) {
      HeldAfter(s, Pause(id), other);
      HeldAfter(t, resume, other);
    }
    SameCells(Do(t, resume), s);
  }

  lemma PauseFrees(s: Server, id: SessionId)
    requires id in s.sessions && s.sessions[id].status == Active
    ensures forall g :: g in HeldBy(s.held, id) ==> g !in Do(s, Pause(id)).held
  {
  }

  // ---------------------------------------------------------------- independence

  /** The GPUs an operation on one session could be handed. */
  function Wanted(op: Op): set<Gpu> {
    match op
    case Create(_, _, _, _, _, grant, _, _) => if grant.Some? then G.IdSet(grant.value) else {}
    case Fork(_, _, _, _, _, grant, _) => if grant.Some? then G.IdSet(grant.value) else {}
    case Resume(_, _, grant, _) => if grant.Some? then G.IdSet(grant.value) else {}
    case _ => {}
  }

  /** Both may happen in either order, and neither grant takes what the other session holds
      or is handed. */
  predicate Independent(s: Server, a: Op, b: Op) {
    && !a.Cleanup? && !a.Restart? && !b.Cleanup? && !b.Restart? && a.id != b.id
    && Admitted(s, a) && Admitted(s, b) && Admitted(Do(s, a), b) && Admitted(Do(s, b), a)
    && Wanted(a) !! HeldBy(s.held, b.id) && Wanted(b) !! HeldBy(s.held, a.id)
    && Wanted(a) !! Wanted(b)
  }

  /** Nothing a call takes was ungranted: its cell ends with what it had or was handed. */
  lemma NextTakesGranted(c: Cell, taken: set<Gpu>, op: Op)
    requires !op.Cleanup? && !op.Restart?
    ensures Next(c, taken, op).gpus <= c.gpus + Wanted(op)
  {
  }

  /** What the rest of the registry holds matters only where a grant would overlap it. */
  lemma OthersDoNotMatter(c: Cell, taken: set<Gpu>, taken': set<Gpu>, op: Op)
    requires !op.Cleanup? && !op.Restart?
    requires taken * Wanted(op) == taken' * Wanted(op)
    ensures Next(c, taken, op) == Next(c, taken', op)
  {
    forall n: nat, gpus: seq<Gpu> | G.IdSet(gpus) == Wanted(op)
        ensures Usable(taken, n, gpus) == Usable(taken', n, gpus) {
      forall i | 0 <= i < |gpus| ensures gpus[i] in taken <==> gpus[i] in taken' {
        assert gpus[i] in Wanted(op);
        assert gpus[i] in taken * Wanted(op) <==> gpus[i] in taken' * Wanted(op);
      }
    }
  }

  lemma HeldAfter(s: Server, a: Op, id: SessionId)
    requires !a.Cleanup? && !a.Restart? && Admitted(s, a)
    ensures At(Do(s, a), id) == if id == a.id then Next(At(s, a.id), s.held.Keys, a) else At(s, id)
  {
    NextTakesOnlyFree(s, a);
    AtAfterPut(s, a.id, Next(At(s, a.id), s.held.Keys, a), id);
  }

  /** What `b` may take is held after `a` just as before. */
  lemma SameFreeFor(s: Server, a: Op, b: Op)
    requires Independent(s, a, b)
    ensures s.held.Keys * Wanted(b) == Do(s, a).held.Keys * Wanted(b)
  {
    HeldAfter(s, a, a.id);
    NextTakesGranted(At(s, a.id), s.held.Keys, a);
    forall g | g in Wanted(b) ensures g in s.held <==> g in Do(s, a).held {
      assert g !in HeldBy(s.held, a.id);
      assert g !in HeldBy(Do(s, a).held, a.id);
      if g in s.held {
        HeldAfter(s, a, s.held[g]);
        assert g in HeldBy(s.held, s.held[g]);
        assert g in HeldBy(Do(s, a).held, s.held[g]);
      }
      if g in Do(s, a).held {
        HeldAfter(s, a, Do(s, a).held[g]);
        assert g in HeldBy(Do(s, a).held, Do(s, a).held[g]);
        assert g in HeldBy(s.held, Do(s, a).held[g]);
      }
    }
  }

  lemma CellAfterBoth(s: Server, a: Op, b: Op, id: SessionId)
    requires Independent(s, a, b)
    ensures At(Do(Do(s, a), b), id) ==
            if id == a.id then Next(At(s, a.id), s.held.Keys, a)
            else if id == b.id then Next(At(s, b.id), s.held.Keys, b) else At(s, id)
  {
    HeldAfter(s, a, id);
    HeldAfter(s, a, b.id);
    HeldAfter(Do(s, a), b, id);
    SameFreeFor(s, a, b);
    OthersDoNotMatter(At(s, b.id), s.held.Keys, Do(s, a).held.Keys, b);
  }

  /** Calls on different sessions commute, so a run of whole calls stands for every order in
      which calls on different sessions could have been made. */
  lemma DifferentSessionsCommute(s: Server, a: Op, b: Op)
    requires Independent(s, a, b)
    ensures Do(Do(s, a), b) == Do(Do(s, b), a)
  {
    forall id ensures At(Do(Do(s, a), b), id) == At(Do(Do(s, b), a), id) {
      CellAfterBoth(s, a, b, id);
      CellAfterBoth(s, b, a, id);
    }
    SameCells(Do(Do(s, a), b), Do(Do(s, b), a));
  }

  // ---------------------------------------------------------------- conservation

  /** The GPUs the sessions of `ids` are entitled to. */
  ghost function Owed(s: Server, ids: set<SessionId>): nat
    requires ids <= s.sessions.Keys
  {
    if ids == {} then 0
    else var id :| id in ids;
      OwedTo(s, id) + Owed(s, ids - {id})
  }

  function OwedTo(s: Server, id: SessionId): nat
    requires id in s.sessions
  {
    if s.sessions[id].status in {Active, Building} then s.sessions[id].requested else 0
  }

  lemma {:induction false} HeldAmong(s: Server, ids: set<SessionId>)
    requires Sound(s) && ids <= s.sessions.Keys
    ensures |set g | g in s.held && s.held[g] in ids| == Owed(s, ids)
    decreases |ids|
  {
    if ids == {} {
      assert (set g | g in s.held && s.held[g] in ids) == {};
    } else {
      var id :| id in ids && Owed(s, ids) == OwedTo(s, id) + Owed(s, ids - {id});
      HeldAmong(s, ids - {id});
      OneMoreHolder(s.held, ids, id);
      HoldsWhatItIsOwed(s, id);
    }
  }

  lemma OneMoreHolder(held: map<Gpu, SessionId>, ids: set<SessionId>, id: SessionId)
    requires id in ids
    ensures |set g | g in held && held[g] in ids| == |set g | g in held && held[g] in ids - {id}| + |HeldBy(held, id)|
  {
    var all := set g | g in held && held[g] in ids;
    var rest := set g | g in held && held[g] in ids - {id};
    assert all == rest + HeldBy(held, id) && rest !! HeldBy(held, id);
  }

  lemma HoldsWhatItIsOwed(s: Server, id: SessionId)
    requires Sound(s) && id in s.sessions
    ensures |HeldBy(s.held, id)| == OwedTo(s, id)
  {
    assert CellOk(At(s, id));
  }

  /** No GPU is lost and none appears: as many are registered as the building and active
      sessions asked for together, every one of them to a session the server knows. */
  lemma GpusAreConserved(s: Server)
    requires Sound(s)
    ensures |s.held| == Owed(s, s.sessions.Keys)
    ensures forall g :: g in s.held ==> s.held[g] in s.sessions && s.sessions[s.held[g]].status in {Active, Building}
  {
    forall g | g in s.held ensures s.held[g] in s.sessions && s.sessions[s.held[g]].status in {Active, Building} {
      assert CellOk(At(s, s.held[g]));
      assert g in HeldBy(s.held, s.held[g]);
    }
    HeldAmong(s, s.sessions.Keys);
    assert s.held.Keys == set g | g in s.held && s.held[g] in s.sessions.Keys;
    assert |s.held| == |s.held.Keys|;
  }

  /** An active session shows the GPUs it holds exactly when it asked for some or shows none. */
  lemma ShowsWhatItHoldsIff(s: Server, id: SessionId)
    requires Sound(s) && id in s.sessions && s.sessions[id].status in {Active, Building}
    ensures HeldBy(s.held, id) == G.IdSet(s.sessions[id].gpuIds)
            <==> (s.sessions[id].requested > 0 || s.sessions[id].gpuIds == [])
  {
    assert CellOk(At(s, id));
    if s.sessions[id].requested == 0 {
      assert HeldBy(s.held, id) == {};
      if s.sessions[id].gpuIds != [] {
        assert s.sessions[id].gpuIds[0] in G.IdSet(s.sessions[id].gpuIds);
      }
    }
  }

  /** A file from before requested_gpu_count was saved. */
  const OldFile := Doc(Saved(Paused, Some([0]), None, None, None))

  /** Reachable from it: loaded and resumed, the session is active, shows GPU 0 and holds
      nothing. */
  lemma OldFileShowsUnheldGpus(id: SessionId)
    ensures var s := Do(FirstBoot(map[id := OldFile], 1), Resume(id, true, None, Started));
      && Sound(s) && id in s.sessions && s.sessions[id].status == Active
      && s.sessions[id].gpuIds == [0] && HeldBy(s.held, id) == {}
  {
    var boot, op := FirstBoot(map[id := OldFile], 1), Resume(id, true, None, Started);
    RestartFromAnyDisk(Server(map[], map[id := OldFile], map[], {}, 1));
    SoundAfterIff(boot, op);
    HeldAfter(boot, op, id);
    assert boot.sessions[id] == Session(Paused, [0], 0, 0, None);
    assert Get(Do(boot, op).sessions, id) == At(Do(boot, op), id).memory;
    assert HeldBy(boot.held, id) == {} && G.IdSet([]) == {};
  }

  // ---------------------------------------------------------------- what stranding leads to

  /** GPUs registered to a session the server no longer knows. */
  predicate Orphaned(s: Server, id: SessionId, gpus: set<Gpu>) {
    && gpus != {} && id !in s.sessions && id !in s.builds && HeldBy(s.held, id) == gpus
  }

  /** Without a terminal a new session keeps its GPUs while FAILED; the sweep of old FAILED
      sessions then forgets the session and not its GPUs. */
  lemma SweptWhileStranded(s: Server, op: Op, stale: set<SessionId>)
    requires op.Create? && Strands(s, op) && op.id in stale
    ensures Orphaned(Do(Do(s, op), Cleanup(stale)), op.id, G.IdSet(op.grant.value))
  {
    HeldAfter(s, op, op.id);
    assert op.grant.value[0] in G.IdSet(op.grant.value);
    var t := Do(s, op);
    assert Get(t.sessions, op.id) == At(t, op.id).memory;
  }

  /** Only a restart gets such GPUs back. */
  lemma {:induction false} OrphansNeedARestart(s: Server, id: SessionId, gpus: set<Gpu>, ops: seq<Op>)
    requires Orphaned(s, id, gpus) && Restart !in ops
    ensures Orphaned(Run(s, ops), id, gpus)
    decreases |ops|
  {
    if ops != [] {
      var op := ops[0];
      if op.Cleanup? {
        assert Orphaned(Do(s, op), id, gpus);
      } else if Admitted(s, op) {
        HeldAfter(s, op, id);
        assert Get(Do(s, op).sessions, id) == At(Do(s, op), id).memory;
        assert (id in Do(s, op).builds) == At(Do(s, op), id).building;
        assert Orphaned(Do(s, op), id, gpus);
      }
      OrphansNeedARestart(Do(s, op), id, gpus, ops[1..]);
    }
  }

  // ---------------------------------------------------------------- the session limit

  ghost predicate WithinLimit(s: Server) {
    forall owner :: |LiveOf(s, owner)| <= s.limit
  }

  /** A resume of a paused session that gets its GPUs and its terminal while the owner has
      as many live sessions as allowed. */
  predicate Exceeds(s: Server, op: Op) {
    && op.Resume? && op.id in s.sessions && s.sessions[op.id].status == Paused
    && op.ready && op.launch.Started? && Acquired(s.held.Keys, s.sessions[op.id].requested, op.grant).Some?
    && |LiveOf(s, s.sessions[op.id].owner)| >= s.limit
  }

  /** Resuming makes a session live exactly when it is paused and everything succeeds. */
  lemma ResumeEnlivensIff(c: Cell, taken: set<Gpu>, op: Op)
    requires CellOk(c) && op.Resume?
    ensures !IsLive(c.memory) && IsLive(Next(c, taken, op).memory) <==>
            c.memory.Some? && c.memory.value.status == Paused && op.ready && op.launch.Started?
            && Acquired(taken, c.memory.value.requested, op.grant).Some?
  {
  }

  lemma LiveElsewhere(s: Server, op: Op, owner: Option<string>)
    requires !op.Restart? && !op.Cleanup? && Admitted(s, op)
    ensures LiveOf(Do(s, op), owner) - {op.id} == LiveOf(s, owner) - {op.id}
    ensures Get(Do(s, op).sessions, op.id) == Next(At(s, op.id), s.held.Keys, op).memory
  {
    HeldAfter(s, op, op.id);
    forall id | id != op.id ensures Get(Do(s, op).sessions, id) == Get(s.sessions, id) {
      HeldAfter(s, op, id);
      assert At(Do(s, op), id).memory == At(s, id).memory;
    }
    forall id | id != op.id ensures id in LiveOf(Do(s, op), owner) <==> id in LiveOf(s, owner) {
      assert Get(Do(s, op).sessions, id) == Get(s.sessions, id);
    }
  }

  /** A session comes alive by being created, below the limit, or by being resumed. */
  lemma ComesAlive(c: Cell, taken: set<Gpu>, op: Op)
    requires CellOk(c) && !op.Restart? && !op.Cleanup? && (op.Create? || op.Fork? ==> c == Nothing)
    ensures var c' := Next(c, taken, op);
            c'.memory.Some? && Live(c'.memory.value) ==>
              || ((op.Create? || op.Fork?) && c'.memory.value.owner == op.owner)
              || (c.memory.Some? && c.memory.value.owner == c'.memory.value.owner &&
                  (Live(c.memory.value) || op.Resume?))
  {
  }

  predicate IsLive(m: Option<Session>) {
    m.Some? && Live(m.value)
  }

  /** Counting alone: `t` differs from `s` in session `id` only, which was not live if it is
      new and whose owner stays; a new one finds its owner below the limit. */
  lemma LimitBetween(s: Server, t: Server, id: SessionId, owner: Option<string>, isNew: bool)
    requires |LiveOf(s, owner)| <= s.limit
    requires LiveOf(t, owner) - {id} == LiveOf(s, owner) - {id}
    requires isNew ==> id !in s.sessions && (id in LiveOf(t, owner) ==> |LiveOf(s, owner)| < s.limit)
    requires !isNew && id in t.sessions ==> id in s.sessions && s.sessions[id].owner == t.sessions[id].owner
    ensures |LiveOf(t, owner)| > s.limit <==>
            !isNew && !IsLive(Get(s.sessions, id)) && IsLive(Get(t.sessions, id))
            && t.sessions[id].owner == owner && |LiveOf(s, owner)| == s.limit
  {
    var before, after := LiveOf(s, owner), LiveOf(t, owner);
    forall x | x != id ensures x in after <==> x in before {
      assert x in after - {id} <==> x in before - {id};
    }
    if id in after && id !in before {
      assert after == before + {id};
    } else {
      assert after <= before;
      G.SubsetSize(after, before);
    }
  }

  lemma LimitAfterOne(s: Server, op: Op, owner: Option<string>)
    requires Sound(s) && WithinLimit(s) && !op.Restart? && !op.Cleanup? && Admitted(s, op)
    ensures |LiveOf(Do(s, op), owner)| > s.limit <==>
            Exceeds(s, op) && s.sessions[op.id].owner == owner
  {
    var t, isNew := Do(s, op), op.Create? || op.Fork?;
    assert CellOk(At(s, op.id));
    LiveElsewhere(s, op, owner);
    ComesAlive(At(s, op.id), s.held.Keys, op);
    KeepsOwner(At(s, op.id), s.held.Keys, op);
    if op.Resume? {
      ResumeEnlivensIff(At(s, op.id), s.held.Keys, op);
    }
    HeldAfter(s, op, op.id);
    assert At(t, op.id).memory == Get(t.sessions, op.id);
    assert At(s, op.id).memory == Get(s.sessions, op.id);
    LimitBetween(s, t, op.id, owner, isNew);
  }

  lemma KeepsOwner(c: Cell, taken: set<Gpu>, op: Op)
    requires !op.Restart? && !op.Cleanup?
    ensures var c' := Next(c, taken, op);
            c'.memory.Some? ==>
              if op.Create? || op.Fork? then c'.memory.value.owner == op.owner
              else c.memory.Some? && c'.memory.value.owner == c.memory.value.owner
  {
  }

  /** Creating checks the limit and resuming does not: one operation keeps every owner
      within the limit exactly when it is not such a resume. */
  lemma WithinLimitAfterIff(s: Server, op: Op)
    requires Sound(s) && WithinLimit(s)
    ensures WithinLimit(Do(s, op)) <==> !Exceeds(s, op)
  {
    var t := Do(s, op);
    assert t.limit == s.limit;
    if op.Restart? || op.Cleanup? {
      RestartFromAnyDisk(s);
      forall owner ensures |LiveOf(t, owner)| <= s.limit {
        assert LiveOf(t, owner) <= LiveOf(s, owner);
        G.SubsetSize(LiveOf(t, owner), LiveOf(s, owner));
      }
    } else if Admitted(s, op) {
      forall owner ensures |LiveOf(t, owner)| > s.limit <==> Exceeds(s, op) && s.sessions[op.id].owner == owner {
        LimitAfterOne(s, op, owner);
      }
      assert Exceeds(s, op) ==> |LiveOf(t, s.sessions[op.id].owner)| > t.limit;
    }
  }

  /** It happens: with room for one session, A is created and paused, B is created, and A is
      resumed. */
  lemma ResumingExceedsTheLimit(a: SessionId, b: SessionId, owner: Option<string>)
    requires a != b
    ensures var s1 := Do(FirstBoot(map[], 1), Create(a, owner, 0, None, true, None, Started, false));
      var s3 := Do(Do(s1, Pause(a)), Create(b, owner, 0, None, true, None, Started, false));
      && Sound(s3) && WithinLimit(s3) && Exceeds(s3, Resume(a, true, None, Started))
      && !WithinLimit(Do(s3, Resume(a, true, None, Started)))
  {
    var s0 := FirstBoot(map[], 1);
    var s1 := Do(s0, NewFor(a, owner));
    var s2 := Do(s1, Pause(a));
    var s3 := Do(s2, NewFor(b, owner));
    EmptyBoot();
    CreatesActive(s0, a, owner);
    StaysWithin(s1, Pause(a));
    HeldAfter(s1, Pause(a), a);
    HeldAfter(s1, Pause(a), b);
    assert Get(s2.sessions, a) == At(s2, a).memory && At(s2, a).memory.value.status == Paused;
    NobodyElseIsLive(s0, s1, s2, a, owner);
    CreatesActive(s2, b, owner);
    assert Get(s3.sessions, a) == At(s3, a).memory == At(s2, a).memory;
    assert b in LiveOf(s3, owner);
    G.SubsetSize({b}, LiveOf(s3, owner));
    WithinLimitAfterIff(s3, Resume(a, true, None, Started));
  }

  function NewFor(id: SessionId, owner: Option<string>): Op {
    Create(id, owner, 0, None, true, None, Started, false)
  }

  lemma EmptyBoot()
    ensures var s := FirstBoot(map[], 1);
      s.limit == 1 && s.sessions == map[] && Sound(s) && WithinLimit(s) && forall id :: At(s, id) == Nothing
  {
    var s := FirstBoot(map[], 1);
    RestartFromAnyDisk(Server(map[], map[], map[], {}, 1));
    assert forall owner :: LiveOf(s, owner) == {};
    assert forall id :: HeldBy(s.held, id) == {};
  }

  lemma StaysWithin(s: Server, op: Op)
    requires Sound(s) && WithinLimit(s) && !Strands(s, op) && !op.Resume?
    ensures Sound(Do(s, op)) && WithinLimit(Do(s, op))
  {
    SoundAfterIff(s, op);
    WithinLimitAfterIff(s, op);
  }

  lemma CreatesActive(s: Server, id: SessionId, owner: Option<string>)
    requires Sound(s) && WithinLimit(s) && At(s, id) == Nothing && |LiveOf(s, owner)| < s.limit
    ensures var t := Do(s, NewFor(id, owner));
      && Sound(t) && WithinLimit(t) && t.limit == s.limit
      && id in t.sessions && t.sessions[id] == Session(Active, [], 0, 0, owner)
      && (forall other :: other != id ==> At(t, other) == At(s, other))
  {
    var op := NewFor(id, owner);
    StaysWithin(s, op);
    forall other ensures At(Do(s, op), other) == if other == id then Next(At(s, id), s.held.Keys, op)
        else At(s, other) {
      HeldAfter(s, op, other);
    }
    assert Get(Do(s, op).sessions, id) == At(Do(s, op), id).memory;
  }

  lemma NobodyElseIsLive(s0: Server, s1: Server, s2: Server, a: SessionId, owner: Option<string>)
    requires s0.sessions == map[] && s2 == Do(s1, Pause(a))
    requires forall other :: other != a ==> At(s1, other) == At(s0, other)
    requires At(s2, a).memory.Some? && At(s2, a).memory.value.status == Paused
    ensures |LiveOf(s2, owner)| == 0
  {
    forall id ensures id !in LiveOf(s2, owner) {
      HeldAfter(s1, Pause(a), id);
      assert Get(s2.sessions, id) == At(s2, id).memory;
      if id != a {
        assert At(s1, id).memory == Get(s0.sessions, id);
      }
    }
    assert LiveOf(s2, owner) == {};
  }
}
