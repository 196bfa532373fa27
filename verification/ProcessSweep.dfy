/** The sweep that stops a session's processes: one scan of a process snapshot, SIGTERM to
    groups or single processes, a rescan, SIGKILL, and a last scan. */
module ProcessSweep {
  import opened Options
  import opened ProcessMarkers
  import opened Segments

  type Pid = int

  /** A live process; `identity` is None when nothing about it could be read. */
  datatype Proc = Proc(identity: Option<Identity>, group: int)

  type Snapshot = map<Pid, Proc>

  /** The server itself: its process group and the pids it must never own. */
  datatype Server = Server(group: int, guarded: set<Pid>)

  // ---------------------------------------------------------------- protected pids

  /** The n-th ancestor, as long as parents are readable and positive. */
  function Ancestor(parent: map<Pid, int>, pid: Pid, n: nat): Option<Pid> {
    if n == 0 then Some(pid)
    else
      var below := Ancestor(parent, pid, n - 1);
      if below.Some? && below.value in parent && parent[below.value] > 0 then Some(parent[below.value]) else None
  }

  predicate IsAncestor(parent: map<Pid, int>, pid: Pid, p: Pid) {
    exists n: nat | n <= 64 :: Ancestor(parent, pid, n) == Some(p)
  }

  /** Init, the server, and its ancestors, in a walk of at most 64 steps. */
  method ProtectedPids(self: Pid, parent: map<Pid, int>) returns (r: set<Pid>)
    ensures 1 in r && self in r
    ensures forall p :: p in r ==> p == 1 || IsAncestor(parent, self, p)
    ensures (forall p :: p in r && p != 1 && p in parent && parent[p] > 0 ==> parent[p] in r) || |r| > 64
  {
    r := {1, self};
    var pid, n := self, 0;
    assert Ancestor(parent, self, 0) == Some(self);
    while n < 64
      invariant Ancestor(parent, self, n) == Some(pid)
      invariant forall p :: p in r ==> p == 1 || IsAncestor(parent, self, p)
      invariant 0 <= n <= 64
      invariant 1 in r && self in r && pid in r && |r| > n
      invariant forall p :: p in r && p != 1 && p != pid && p in parent && parent[p] > 0 ==> parent[p] in r
    {
      if pid !in parent || parent[pid] <= 0 || parent[pid] in r {
        return;
      }
      r := r + {parent[pid]};
      assert Ancestor(parent, self, n + 1) == Some(parent[pid]);
      pid := parent[pid];
      n := n + 1;
    }
  }

  // ---------------------------------------------------------------- the scan

  predicate Candidate(s: Snapshot, server: Server, pid: Pid) {
    pid in s && pid !in server.guarded && s[pid].identity.Some?
  }

  predicate IsExemptRun(s: Snapshot, server: Server, pid: Pid) {
    Candidate(s, server, pid) && IsExempt(s[pid].identity.value)
  }

  predicate IsOwned(s: Snapshot, server: Server, m: Markers, pid: Pid) {
    && Candidate(s, server, pid)
    && !IsExempt(s[pid].identity.value)
    && Matches(m, s[pid].identity.value)
    && s[pid].group != server.group
  }

  function Owned(s: Snapshot, server: Server, m: Markers): set<Pid> {
    if m.envLine.None? then {} else set pid | pid in s && IsOwned(s, server, m, pid)
  }

  function ExemptGroups(s: Snapshot, server: Server): set<int> {
    set pid | pid in s && IsExemptRun(s, server, pid) :: s[pid].group
  }

  function SetOf(xs: seq<Pid>): set<Pid> {
    set pid | pid in xs
  }

  predicate Ascending(xs: seq<Pid>) {
    forall i, j :: 0 <= i < j < |xs| ==> xs[i] < xs[j]
  }

  method InsertSorted(xs: seq<Pid>, x: Pid) returns (r: seq<Pid>)
    requires Ascending(xs) && x !in xs
    ensures Ascending(r) && forall y :: y in r <==> y == x || y in xs
  {
    var i := 0;
    while i < |xs| && xs[i] < x
      invariant 0 <= i <= |xs|
      invariant forall j :: 0 <= j < i ==> xs[j] < x
    {
      i := i + 1;
    }
    r := xs[..i] + [x] + xs[i..];
  }

  /** The scan loop over the numeric directory entries, in whatever order they are listed. */
  method Scan(s: Snapshot, entries: seq<Pid>, server: Server, m: Markers) returns (owned: seq<Pid>, exempt: set<int>)
    requires forall i, j :: 0 <= i < j < |entries| ==> entries[i] != entries[j]
    requires forall pid :: pid in entries <==> pid in s
    ensures Ascending(owned) && SetOf(owned) == Owned(s, server, m)
    ensures m.envLine.Some? ==> exempt == ExemptGroups(s, server)
    ensures m.envLine.None? ==> owned == [] && exempt == {}
  {
    owned, exempt := [], {};
    if m.envLine.None? {
      return;
    }
    var i := 0;
    while i < |entries|
      invariant 0 <= i <= |entries|
      invariant Ascending(owned)
      invariant forall pid :: pid in owned <==> pid in entries[..i] && IsOwned(s, server, m, pid)
      invariant exempt == set pid | pid in entries[..i] && IsExemptRun(s, server, pid) :: s[pid].group
    {
      var pid := entries[i];
      assert pid in entries;
      assert forall p :: p in entries[..i + 1] <==> p == pid || p in entries[..i];
      if Candidate(s, server, pid) {
        var identity := s[pid].identity.value;
        if IsExempt(identity) {
          exempt := exempt + {s[pid].group};
        } else if Matches(m, identity) && s[pid].group != server.group {
          owned := InsertSorted(owned, pid);
        }
      }
      i := i + 1;
    }
    assert entries[..|entries|] == entries;
    assert forall pid :: pid in owned <==> pid in Owned(s, server, m);
  }

  lemma SetOfEmpty(xs: seq<Pid>)
    ensures SetOf(xs) == {} <==> xs == []
  {
    if xs != [] {
      assert xs[0] in SetOf(xs);
    }
  }

  // ---------------------------------------------------------------- whom a signal reaches

  /** The whole group, or the one process when the group must not be signalled. */
  predicate GroupWide(group: int, server: Server, exempt: set<int>) {
    group > 1 && group != server.group && group !in exempt
  }

  /** Everything that receives the signal when each owned process is signalled in turn. */
  function Reached(s: Snapshot, server: Server, owned: set<Pid>): set<Pid> {
    var exempt := ExemptGroups(s, server);
    set p | p in s && (p in owned || SharesGroup(s, server, owned, exempt, p))
  }

  /** Some process of `owned` has the same group, and that group may be signalled. */
  predicate SharesGroup(s: Snapshot, server: Server, owned: set<Pid>, exempt: set<int>, p: Pid)
    requires p in s
  {
    exists q :: q in owned && q in s && s[q].group == s[p].group && GroupWide(s[q].group, server, exempt)
  }

  /** Signal one process the way the code picks its target. */
  function Targets(s: Snapshot, server: Server, exempt: set<int>, pid: Pid): set<Pid> {
    if pid !in s then {}
    else if GroupWide(s[pid].group, server, exempt) then set p | p in s && s[p].group == s[pid].group
    else {pid}
  }

  method SignalAll(s: Snapshot, server: Server, owned: seq<Pid>, exempt: set<int>) returns (hit: set<Pid>)
    requires exempt == ExemptGroups(s, server) && SetOf(owned) <= s.Keys
    ensures hit == Reached(s, server, SetOf(owned))
  {
    hit := {};
    var i := 0;
    while i < |owned|
      invariant 0 <= i <= |owned|
      invariant hit == set p | p in s && (p in owned[..i] || SharesGroup(s, server, SetOf(owned[..i]), exempt, p))
    {
      assert SetOf(owned[..i + 1]) == SetOf(owned[..i]) + {owned[i]};
      assert forall q :: q in owned[..i + 1] <==> q == owned[i] || q in owned[..i];
      assert owned[i] in SetOf(owned);
      hit := hit + Targets(s, server, exempt, owned[i]);
      i := i + 1;
    }
    assert owned[..|owned|] == owned;
  }

  /** Whom the sweep reaches, exactly: the owned processes, and whoever shares a group with
      one of them when that group shelters no exempt run, is not the server's and is not
      group 0 or 1. */
  lemma SweepReaches(s: Snapshot, server: Server, m: Markers, p: Pid)
    requires m.envLine.Some? && p in s
    ensures p in Reached(s, server, Owned(s, server, m)) <==>
      || IsOwned(s, server, m, p)
      || ((exists q :: IsOwned(s, server, m, q) && s[q].group == s[p].group) && s[p].group > 1 && p in s
          && !exists r :: IsExemptRun(s, server, r) && s[r].group == s[p].group)
  {
    var exempt := ExemptGroups(s, server);
    assert s[p].group in exempt <==> exists r :: IsExemptRun(s, server, r) && s[r].group == s[p].group;
    if q :| IsOwned(s, server, m, q) && s[q].group == s[p].group {
      assert q in Owned(s, server, m);
    }
  }

  /** A process that carries the line of a detached run, or runs the script kept for them. */
  ghost predicate IsDetached(p: Identity) {
    || "AMMO_DETACHED_RUN=1" in p.environ
    || exists arg :: arg in p.argv && LastComponent(arg) == "reserved_detached_run.sh"
  }

  lemma RunsScriptIff(p: Identity, script: string)
    requires Plain(script)
    ensures HasArgvBasename(p, script) <==> exists arg :: arg in p.argv && LastComponent(arg) == script
  {
    if i :| 0 <= i < |p.argv| && (p.argv[i] == script || EndsWith(p.argv[i], "/" + script)) {
      BasenameIsLastComponent(p.argv[i], script);
      assert p.argv[i] in p.argv && LastComponent(p.argv[i]) == script;
    }
    if arg :| arg in p.argv && LastComponent(arg) == script {
      BasenameIsLastComponent(arg, script);
      var i :| 0 <= i < |p.argv| && p.argv[i] == arg;
    }
  }

  lemma IsExemptIff(p: Identity)
    ensures IsExempt(p) <==> IsDetached(p)
  {
    RunsScriptIff(p, EXEMPT_SCRIPT);
  }

  /** Whom session `id` owns, exactly: whoever carries its line or has a token under its
      directory, is no detached run, is neither guarded nor in the server's group, and can be
      read at all. */
  lemma OwnedIff(s: Snapshot, server: Server, sessionsDir: string, id: string, p: Pid)
    requires id != "" && Plain(id)
    ensures p in Owned(s, server, StandardMarkers(sessionsDir, id)) <==>
      && p in s && p !in server.guarded && s[p].group != server.group
      && s[p].identity.Some? && !IsDetached(s[p].identity.value)
      && (EnvLine(id) in s[p].identity.value.environ ||
        exists t :: IsToken(s[p].identity.value, t) && Under(sessionsDir, id, t))
  {
    StandardMarkersAre(sessionsDir, id);
    if p in s && s[p].identity.Some? {
      IsExemptIff(s[p].identity.value);
      MatchesIff(sessionsDir, id, s[p].identity.value);
    }
  }

  /** Every owned process is signalled. */
  lemma OwnedAreReached(s: Snapshot, server: Server, m: Markers)
    ensures Owned(s, server, m) <= Reached(s, server, Owned(s, server, m))
  {
  }

  /** An exempt run, and anybody in its group that is not itself owned, is never signalled. */
  lemma ExemptRunsSurvive(s: Snapshot, server: Server, m: Markers, run: Pid, p: Pid)
    requires IsExemptRun(s, server, run) && p in s && s[p].group == s[run].group && p !in Owned(s, server, m)
    ensures p !in Reached(s, server, Owned(s, server, m))
  {
    assert s[run].group in ExemptGroups(s, server);
  }

  /** Nobody in the server's own group is ever signalled; nor is init, whose group is 0 or 1;
      nor any guarded process that shares no group with an owned one. */
  lemma ServerAndInitSurvive(s: Snapshot, server: Server, m: Markers, p: Pid)
    requires p in s && 1 in server.guarded
    ensures p in server.guarded ==> p !in Owned(s, server, m)
    ensures s[p].group == server.group ==> p !in Reached(s, server, Owned(s, server, m))
    ensures p == 1 && s[p].group <= 1 ==> p !in Reached(s, server, Owned(s, server, m))
    ensures p in server.guarded && p in Reached(s, server, Owned(s, server, m)) ==>
              exists q :: IsOwned(s, server, m, q) && s[q].group == s[p].group
  {
    var owned := Owned(s, server, m);
    if p in Reached(s, server, owned) && p !in owned {
      var q :| q in owned && q in s && s[q].group == s[p].group &&
          GroupWide(s[q].group, server, ExemptGroups(s, server));
      assert IsOwned(s, server, m, q);
    }
  }

  // ---------------------------------------------------------------- TERM, rescan, KILL

  /** A snapshot with its directory listing. */
  datatype Listing = Listing(procs: Snapshot, entries: seq<Pid>)

  ghost predicate Lists(l: Listing) {
    && (forall i, j :: 0 <= i < j < |l.entries| ==> l.entries[i] != l.entries[j])
    && (forall pid :: pid in l.entries <==> pid in l.procs)
  }

  /** The whole loop against three successive snapshots; no cli or ttyd pid is recorded, so
      the forced kill between the scans has nothing to do. */
  method KillSessionOwned(first: Listing, second: Listing, third: Listing, server: Server, m: Markers)
    returns (survivors: seq<Pid>, termed: set<Pid>, killed: set<Pid>)
    requires Lists(first) && Lists(second) && Lists(third)
    ensures Ascending(survivors)
    ensures termed == Reached(first.procs, server, Owned(first.procs, server, m))
    ensures Owned(first.procs, server, m) == {} ==> survivors == [] && killed == {}
    ensures Owned(first.procs, server, m) != {} ==>
      && killed == Reached(second.procs, server, Owned(second.procs, server, m))
      && SetOf(survivors) == if Owned(second.procs, server, m) == {} then {} else Owned(third.procs, server, m)
  {
    termed, killed := {}, {};
    var pids, exempt := Scan(first.procs, first.entries, server, m);
    SetOfEmpty(pids);
    if pids == [] {
      survivors := [];
      return;
    }
    termed := SignalAll(first.procs, server, pids, exempt);
    survivors, exempt := Scan(second.procs, second.entries, server, m);
    SetOfEmpty(survivors);
    if survivors != [] {
      killed := SignalAll(second.procs, server, survivors, exempt);
      survivors, exempt := Scan(third.procs, third.entries, server, m);
    }
  }

  /** Nothing starts or changes after the second scan; some processes may be gone. */
  ghost predicate OnlyShrinks(second: Snapshot, third: Snapshot) {
    forall p :: p in third ==> p in second && third[p] == second[p]
  }

  /** SIGKILL removes whom it reaches. */
  ghost predicate KillIsEffective(killed: set<Pid>, third: Snapshot) {
    killed !! third.Keys
  }

  /** The last scan finds nothing exactly when every process owned at the second is gone. */
  lemma NothingSurvivesIff(second: Snapshot, third: Snapshot, server: Server, m: Markers)
    requires OnlyShrinks(second, third)
    ensures Owned(third, server, m) == {} <==> Owned(second, server, m) !! third.Keys
  {
    assert forall p :: p in Owned(third, server, m) <==> p in Owned(second, server, m) && p in third;
  }

  /** An effective SIGKILL is enough: the session's GPUs are released only when no process of
      it is left. */
  lemma NothingSurvives(second: Snapshot, third: Snapshot, server: Server, m: Markers)
    requires OnlyShrinks(second, third) && KillIsEffective(Reached(second, server, Owned(second, server, m)), third)
    ensures Owned(third, server, m) == {}
  {
    OwnedAreReached(second, server, m);
    NothingSurvivesIff(second, third, server, m);
  }

  /** A stop of the whole session: the survivor list, which the caller drops before it
      releases the GPUs, is empty exactly when there was nothing to signal, SIGTERM was
      enough, or every process owned at the second scan is gone. */
  method StopSession(first: Listing, second: Listing, third: Listing, server: Server, m: Markers)
      returns (survivors: seq<Pid>)
    requires Lists(first) && Lists(second) && Lists(third) && OnlyShrinks(second.procs, third.procs)
    ensures survivors == [] <==>
      || Owned(first.procs, server, m) == {} || Owned(second.procs, server, m) == {}
      || Owned(second.procs, server, m) !! third.procs.Keys
    ensures KillIsEffective(Reached(second.procs, server, Owned(second.procs, server, m)), third.procs) ==>
        survivors == []
  {
    var termed, killed;
    survivors, termed, killed := KillSessionOwned(first, second, third, server, m);
    NothingSurvivesIff(second.procs, third.procs, server, m);
    OwnedAreReached(second.procs, server, m);
    SetOfEmpty(survivors);
  }

  /** One process that neither signal removes. */
  const Stuck: Snapshot := map[7 := Proc(Some(Identity(["k=v"], [], None)), 7)]

  /** It is owned and signalled both times, and still there when the GPUs are released. */
  lemma AStuckProcessSurvives()
    ensures var server, m := Server(2, {1, 2}), Markers(Some("k=v"), []);
      && OnlyShrinks(Stuck, Stuck) && Owned(Stuck, server, m) == {7}
      && Reached(Stuck, server, Owned(Stuck, server, m)) == {7}
      && !(Owned(Stuck, server, m) !! Stuck.Keys)
  {
    var server, m := Server(2, {1, 2}), Markers(Some("k=v"), []);
    assert "k=v" in Stuck[7].identity.value.environ;
    assert IsOwned(Stuck, server, m, 7);
    assert 7 in Owned(Stuck, server, m);
  }
}
