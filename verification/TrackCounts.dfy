/** Shipped, failed and active track counts of a campaign: the server's counter, the
    dashboard's port of it, and when the two agree. */
module TrackCounts {
  import opened Options

  type OpId = string

  /** `alias` is what the dashboard reads from opId or name when the id itself is empty. */
  datatype Track = NotADict | Track(verdict: string, status: string, alias: string)

  /** Entries of shipped_optimizations; absent or falsy fields are empty. */
  datatype Entry = Plain(id: OpId) | Keyed(opId: OpId, camelId: OpId) | OtherEntry

  datatype Round = NotARound | Round(number: Option<int>, shipped: seq<OpId>, tracks: map<OpId, Track>)

  /** `current` is current_round, or 1 where it is missing or 0. */
  datatype State = State(listed: seq<Entry>, rounds: seq<Round>, current: int, root: Option<map<OpId, Track>>)

  datatype Class = Shipped | Failed | Open

  /** How a counter classifies a track, by its id and its contents. */
  type Classes = (OpId, Track) -> Class

  // ---------------------------------------------------------------- one track

  function UpperChar(c: char): char {
    if 'a' <= c <= 'z' then c - 'a' + 'A' else c
  }

  function LowerChar(c: char): char {
    if 'A' <= c <= 'Z' then c - 'A' + 'a' else c
  }

  function Upper(s: string): (u: string)
    ensures |u| == |s|
  {
    seq(|s|, i requires 0 <= i < |s| => UpperChar(s[i]))
  }

  function Lower(s: string): (l: string)
    ensures |l| == |s|
  {
    seq(|s|, i requires 0 <= i < |s| => LowerChar(s[i]))
  }

  function Token(t: Track): string {
    if t.NotADict? then "" else Upper(if t.verdict != "" then t.verdict else t.status)
  }

  const PassTokens: set<string> := {"PASS", "PASSED", "GATED_PASS", "GATED-PASS"}
  const FailTokens: set<string> := {"FAIL", "FAILED", "GPU_BLOCKED"}

  function ServerClass(ops: set<OpId>, id: OpId, t: Track): Class {
    if id in ops then Shipped
    else if Token(t) in PassTokens || Token(t) == "SHIPPED" then Shipped
    else if Token(t) in FailTokens then Failed
    else Open
  }

  /** The id trackStatus looks up: an empty id gives way to opId or name. */
  function LookedUp(id: OpId, t: Track): OpId {
    if id == "" && t.Track? then t.alias else id
  }

  predicate IsShipped(ops: set<OpId>, op: OpId) {
    op != "" && (op in ops || Upper(op) in ops || Lower(op) in ops)
  }

  datatype Shown = ShownShipped | Validated | Blocked | Gating | ShownFailed | InProgress | Pending

  function TrackStatus(ops: set<OpId>, id: OpId, t: Track): Shown {
    var verdict := Token(t);
    if IsShipped(ops, LookedUp(id, t)) then ShownShipped
    else if verdict == "GATED_PASS" || verdict == "GATED-PASS" then Validated
    else if verdict == "GPU_BLOCKED" then Blocked
    else if verdict == "GATING_REQUIRED" then Gating
    else if verdict == "FAIL" || verdict == "FAILED" then ShownFailed
    else if verdict == "PASS" || verdict == "PASSED" then Validated
    else if verdict != "" then InProgress
    else Pending
  }

  function BucketOf(s: Shown): Class {
    match s
    case ShownShipped => Shipped
    case Validated => Shipped
    case ShownFailed => Failed
    case Blocked => Failed
    case _ => Open
  }

  function ServerClasses(ops: set<OpId>): Classes {
    (id, t) => ServerClass(ops, id, t)
  }

  function DashboardClasses(ops: set<OpId>): Classes {
    (id, t) => BucketOf(TrackStatus(ops, id, t))
  }

  // ---------------------------------------------------------------- the shipped ids

  function ServerId(e: Entry): Option<OpId> {
    match e
    case Plain(id) => Some(id)
    case Keyed(opId, _) => if opId != "" then Some(opId) else None
    case OtherEntry => None
  }

  function DashboardId(e: Entry): Option<OpId> {
    match e
    case Plain(id) => if id != "" then Some(id) else None
    case Keyed(opId, camelId) => if opId != "" then Some(opId) else if camelId != "" then Some(camelId) else None
    case OtherEntry => None
  }

  function ServerOps(listed: seq<Entry>): set<OpId> {
    set e | e in listed && ServerId(e).Some? :: ServerId(e).value
  }

  function DashboardOps(listed: seq<Entry>): set<OpId> {
    set e | e in listed && DashboardId(e).Some? :: DashboardId(e).value
  }

  /** The server alone reads tracks at the root of a state that has no rounds. */
  function ServerRounds(st: State): seq<Round> {
    if st.rounds == [] && st.root.Some? then [Round(Some(st.current), [], st.root.value)] else st.rounds
  }

  // ---------------------------------------------------------------- what is counted

  /** What a round alone says about an id; an open track counts in the current round only. */
  function InRound(cls: Classes, r: Round, current: int, id: OpId): Option<Class> {
    if r.NotARound? then None
    else if id in r.shipped then Some(Shipped)
    else if id in r.tracks && !(cls(id, r.tracks[id]).Open? && r.number != Some(current))
    then Some(cls(id, r.tracks[id]))
    else None
  }

  /** The first round that counts an id decides. */
  function Verdict(cls: Classes, rounds: seq<Round>, current: int, id: OpId): Option<Class> {
    if rounds == [] then None
    else if InRound(cls, rounds[0], current, id).Some? then InRound(cls, rounds[0], current, id)
    else Verdict(cls, rounds[1..], current, id)
  }

  function IdsIn(r: Round): set<OpId> {
    if r.NotARound? then {} else (set id | id in r.shipped) + r.tracks.Keys
  }

  function Ids(rounds: seq<Round>): set<OpId> {
    set r, id | r in rounds && id in IdsIn(r) :: id
  }

  function With(cls: Classes, rounds: seq<Round>, current: int, c: Class): set<OpId> {
    set id | id in Ids(rounds) && Verdict(cls, rounds, current, id) == Some(c)
  }

  function Counted(cls: Classes, rounds: seq<Round>, current: int): set<OpId> {
    set id | id in Ids(rounds) && Verdict(cls, rounds, current, id).Some?
  }

  /** What the ids of `some` add in one round to what is counted already. */
  function NewAmong(cls: Classes, r: Round, current: int, counted: set<OpId>, c: Class, some: set<OpId>): set<OpId> {
    set id | id in some && id !in counted && InRound(cls, r, current, id) == Some(c)
  }

  function New(cls: Classes, r: Round, current: int, counted: set<OpId>, c: Class): set<OpId> {
    NewAmong(cls, r, current, counted, c, IdsIn(r))
  }

  datatype Counts = Counts(shipped: nat, failed: nat, active: nat)

  function Total(n: Counts): nat {
    n.shipped + n.failed + n.active
  }

  function Tally(cls: Classes, rounds: seq<Round>, current: int): Counts {
    Counts(|With(cls, rounds, current, Shipped)|, |With(cls, rounds, current, Failed)|,
        |With(cls, rounds, current, Open)|)
  }

  lemma InRoundIsThere(cls: Classes, r: Round, current: int, id: OpId)
    requires InRound(cls, r, current, id).Some?
    ensures id in IdsIn(r)
  {
  }

  lemma {:induction false} VerdictSplits(cls: Classes, a: seq<Round>, b: seq<Round>, current: int, id: OpId)
    ensures Verdict(cls, a + b, current, id) ==
            if Verdict(cls, a, current, id).Some? then Verdict(cls, a, current, id) else Verdict(cls, b, current, id)
  {
    if a == [] {
      assert a + b == b;
    } else {
      assert (a + b)[1..] == a[1..] + b;
      VerdictSplits(cls, a[1..], b, current, id);
    }
  }

  /** An id is counted exactly when some round counts it. */
  lemma {:induction false} VerdictIff(cls: Classes, rounds: seq<Round>, current: int, id: OpId)
    ensures Verdict(cls, rounds, current, id).Some? <==> exists r :: r in rounds && InRound(cls, r, current, id).Some?
    ensures Verdict(cls, rounds, current, id).Some? ==> id in Ids(rounds)
  {
    if rounds != [] {
      VerdictIff(cls, rounds[1..], current, id);
      if InRound(cls, rounds[0], current, id).Some? {
        InRoundIsThere(cls, rounds[0], current, id);
        assert rounds[0] in rounds;
      } else {
        assert forall r :: r in rounds <==> r == rounds[0] || r in rounds[1..];
      }
    }
  }

  /** One more round: what it adds is disjoint from what was counted, class by class. */
  lemma OneMoreRound(cls: Classes, rounds: seq<Round>, r: Round, current: int, c: Class)
    ensures With(cls, rounds + [r], current, c)
        == With(cls, rounds, current, c) + New(cls, r, current, Counted(cls, rounds, current), c)
    ensures With(cls, rounds, current, c) !! New(cls, r, current, Counted(cls, rounds, current), c)
  {
    var counted := Counted(cls, rounds, current);
    forall id ensures id in With(cls, rounds + [r], current, c) <==>
                      id in With(cls, rounds, current, c) || id in New(cls, r, current, counted, c) {
      VerdictSplits(cls, rounds, [r], current, id);
      VerdictIff(cls, rounds, current, id);
      VerdictIff(cls, rounds + [r], current, id);
      assert Verdict(cls, [r], current, id) == InRound(cls, r, current, id);
      if InRound(cls, r, current, id).Some? {
        InRoundIsThere(cls, r, current, id);
      }
    }
  }

  lemma CountedGrows(cls: Classes, rounds: seq<Round>, r: Round, current: int)
    ensures Counted(cls, rounds + [r], current)
        == CountedAfter(cls, r, current, Counted(cls, rounds, current), IdsIn(r))
  {
    forall id ensures id in Counted(cls, rounds + [r], current) <==>
                      id in CountedAfter(cls, r, current, Counted(cls, rounds, current), IdsIn(r)) {
      VerdictSplits(cls, rounds, [r], current, id);
      VerdictIff(cls, rounds, current, id);
      VerdictIff(cls, rounds + [r], current, id);
      assert Verdict(cls, [r], current, id) == InRound(cls, r, current, id);
      if InRound(cls, r, current, id).Some? {
        InRoundIsThere(cls, r, current, id);
      }
    }
  }

  lemma CountedIsUnion(cls: Classes, rounds: seq<Round>, current: int)
    ensures Counted(cls, rounds, current) ==
            With(cls, rounds, current, Shipped) + With(cls, rounds, current, Failed) + With(cls, rounds, current, Open)
  {
    forall id | id in Counted(cls, rounds, current)
      ensures id in With(cls, rounds, current, Shipped) + With(cls, rounds, current, Failed) +
          With(cls, rounds, current, Open) {
      var c := Verdict(cls, rounds, current, id).value;
      assert c.Shipped? || c.Failed? || c.Open?;
    }
  }

  // ---------------------------------------------------------------- the counters

  function CountedAfter(cls: Classes, r: Round, current: int, counted: set<OpId>, some: set<OpId>): set<OpId> {
    counted + set id | id in some && InRound(cls, r, current, id).Some?
  }

  function Plus(n: Counts, cls: Classes, r: Round, current: int, counted: set<OpId>, some: set<OpId>): Counts {
    Counts(n.shipped + |NewAmong(cls, r, current, counted, Shipped, some)|,
           n.failed + |NewAmong(cls, r, current, counted, Failed, some)|,
           n.active + |NewAmong(cls, r, current, counted, Open, some)|)
  }

  function Bump(n: Counts, c: Option<Class>): Counts {
    match c
    case None => n
    case Some(Shipped) => n.(shipped := n.shipped + 1)
    case Some(Failed) => n.(failed := n.failed + 1)
    case Some(Open) => n.(active := n.active + 1)
  }

  lemma OneMoreNew(cls: Classes, r: Round, current: int, counted: set<OpId>, c: Class, some: set<OpId>, id: OpId)
    requires id !in some
    ensures |NewAmong(cls, r, current, counted, c, some + {id})| ==
            |NewAmong(cls, r, current, counted, c, some)| +
                (if id !in counted && InRound(cls, r, current, id) == Some(c) then 1 else 0)
  {
    var more := NewAmong(cls, r, current, counted, c, some + {id});
    var less := NewAmong(cls, r, current, counted, c, some);
    assert more == less + (if id !in counted && InRound(cls, r, current, id) == Some(c) then {id} else {});
  }

  /** Looking at one more id of a round. */
  lemma OneMoreId(n: Counts, cls: Classes, r: Round, current: int, counted: set<OpId>, some: set<OpId>, id: OpId)
    requires id !in some
    ensures Plus(n, cls, r, current, counted, some + {id}) ==
            Bump(Plus(n, cls, r, current, counted, some), if id in counted then None else InRound(cls, r, current, id))
  {
    OneMoreNew(cls, r, current, counted, Shipped, some, id);
    OneMoreNew(cls, r, current, counted, Failed, some, id);
    OneMoreNew(cls, r, current, counted, Open, some, id);
  }

  lemma CountedOneMore(cls: Classes, r: Round, current: int, counted: set<OpId>, some: set<OpId>, id: OpId)
    ensures CountedAfter(cls, r, current, counted, some + {id}) ==
            CountedAfter(cls, r, current, counted, some) + (if InRound(cls, r, current, id).Some? then {id} else {})
    ensures id in CountedAfter(cls, r, current, counted, some) <==>
        id in counted || (id in some && InRound(cls, r, current, id).Some?)
  {
  }

  /** One turn of either loop over the ids of a round, whether or not `id` came up before. */
  lemma Advance(n: Counts, cls: Classes, r: Round, current: int, counted: set<OpId>, some: set<OpId>, id: OpId)
    ensures var so_far := CountedAfter(cls, r, current, counted, some);
      var adds := if id in so_far then None else InRound(cls, r, current, id);
      && CountedAfter(cls, r, current, counted, some + {id}) == so_far + (if adds.Some? then {id} else {})
      && Plus(n, cls, r, current, counted, some + {id}) == Bump(Plus(n, cls, r, current, counted, some), adds)
  {
    CountedOneMore(cls, r, current, counted, some, id);
    var so_far := CountedAfter(cls, r, current, counted, some);
    if id in so_far {
      assert so_far + {id} == so_far;
    }
    if id in some {
      assert some + {id} == some;
    } else {
      OneMoreId(n, cls, r, current, counted, some, id);
    }
  }

  /** The ids a round lists as shipped. */
  method CountListed(cls: Classes, r: Round, current: int, counted0: set<OpId>, n0: Counts)
    returns (counted: set<OpId>, n: Counts)
    requires r.Round?
    ensures counted == CountedAfter(cls, r, current, counted0, set id | id in r.shipped)
    ensures n == Plus(n0, cls, r, current, counted0, set id | id in r.shipped)
  {
    counted, n := counted0, n0;
    ghost var seen: set<OpId> := {};
    var i := 0;
    while i < |r.shipped|
      invariant 0 <= i <= |r.shipped|
      invariant seen == set k | 0 <= k < i :: r.shipped[k]
      invariant counted == CountedAfter(cls, r, current, counted0, seen)
      invariant n == Plus(n0, cls, r, current, counted0, seen)
    {
      var id := r.shipped[i];
      assert InRound(cls, r, current, id) == Some(Shipped);
      Advance(n0, cls, r, current, counted0, seen, id);
      seen := seen + {id};
      if id !in counted {
        n := n.(shipped := n.shipped + 1);
        counted := counted + {id};
      }
      i := i + 1;
    }
    assert seen == set id | id in r.shipped;
  }

  /** One track, skipped when its id was counted before. */
  method CountTrack(cls: Classes, r: Round, current: int, id: OpId, counted0: set<OpId>, n0: Counts)
    returns (counted: set<OpId>, n: Counts)
    requires r.Round? && id in r.tracks && (id in r.shipped ==> id in counted0)
    ensures var adds := if id in counted0 then None else InRound(cls, r, current, id);
            n == Bump(n0, adds) && counted == counted0 + if adds.Some? then {id} else {}
  {
    counted, n := counted0, n0;
    if id in counted {
      return;
    }
    var c := cls(id, r.tracks[id]);
    if c == Shipped {
      n := n.(shipped := n.shipped + 1);
      counted := counted + {id};
    } else if c == Failed {
      n := n.(failed := n.failed + 1);
      counted := counted + {id};
    } else if r.number == Some(current) {
      n := n.(active := n.active + 1);
      counted := counted + {id};
    }
  }

  lemma OneLess(listed: set<OpId>, keys: set<OpId>, todo: set<OpId>, id: OpId)
    requires id in todo && todo <= keys
    ensures listed + (keys - todo) + {id} == listed + (keys - (todo - {id}))
  {
  }

  lemma ShippedIsCounted(cls: Classes, r: Round, current: int, counted: set<OpId>, some: set<OpId>, id: OpId)
    requires r.Round? && (id in r.shipped ==> id in some)
    ensures id in r.shipped ==> id in CountedAfter(cls, r, current, counted, some)
  {
  }

  /** The body of the loop over rounds, the same in both ports but for the class of a track. */
  method CountRound(cls: Classes, r: Round, current: int, counted0: set<OpId>, n0: Counts)
    returns (counted: set<OpId>, n: Counts)
    requires r.Round?
    ensures counted == CountedAfter(cls, r, current, counted0, IdsIn(r))
    ensures n == Plus(n0, cls, r, current, counted0, IdsIn(r))
  {
    counted, n := CountListed(cls, r, current, counted0, n0);
    ghost var seen := set id | id in r.shipped;
    var todo := r.tracks.Keys;
    while todo != {}
      invariant todo <= r.tracks.Keys
      invariant seen == (set id | id in r.shipped) + (r.tracks.Keys - todo)
      invariant counted == CountedAfter(cls, r, current, counted0, seen)
      invariant n == Plus(n0, cls, r, current, counted0, seen)
    {
      var id :| id in todo;
      todo := todo - {id};
      Advance(n0, cls, r, current, counted0, seen, id);
      ShippedIsCounted(cls, r, current, counted0, seen, id);
      OneLess((set i | i in r.shipped), r.tracks.Keys, todo + {id}, id);
      seen := seen + {id};
      counted, n := CountTrack(cls, r, current, id, counted, n);
    }
    assert seen == IdsIn(r);
  }

  method CountRounds(cls: Classes, rounds: seq<Round>, current: int) returns (n: Counts)
    ensures n == Tally(cls, rounds, current)
  {
    var counted: set<OpId> := {};
    n := Counts(0, 0, 0);
    var i := 0;
    while i < |rounds|
      invariant 0 <= i <= |rounds|
      invariant counted == Counted(cls, rounds[..i], current)
      invariant n == Tally(cls, rounds[..i], current)
    {
      TallyGrows(cls, rounds[..i], rounds[i], current);
      assert rounds[..i + 1] == rounds[..i] + [rounds[i]];
      if rounds[i].Round? {
        counted, n := CountRound(cls, rounds[i], current, counted, n);
      }
      i := i + 1;
    }
    assert rounds[..i] == rounds;
  }

  lemma TallyGrows(cls: Classes, rounds: seq<Round>, r: Round, current: int)
    ensures var counted := Counted(cls, rounds, current);
      && Tally(cls, rounds + [r], current) == Plus(Tally(cls, rounds, current), cls, r, current, counted, IdsIn(r))
      && Counted(cls, rounds + [r], current) == CountedAfter(cls, r, current, counted, IdsIn(r))
      && (r.NotARound? ==> Tally(cls, rounds + [r], current) == Tally(cls, rounds, current))
      && (r.NotARound? ==> Counted(cls, rounds + [r], current) == counted)
  {
    OneMoreRound(cls, rounds, r, current, Shipped);
    OneMoreRound(cls, rounds, r, current, Failed);
    OneMoreRound(cls, rounds, r, current, Open);
    CountedGrows(cls, rounds, r, current);
  }

  /** _count_track_statuses of the server. */
  method CountOnServer(st: State) returns (n: Counts)
    ensures n == Tally(ServerClasses(ServerOps(st.listed)), ServerRounds(st), st.current)
  {
    var ops: set<OpId> := {};
    for i := 0 to |st.listed|
      invariant ops == set k | 0 <= k < i && ServerId(st.listed[k]).Some? :: ServerId(st.listed[k]).value
    {
      match st.listed[i] {
        case Plain(id) => ops := ops + {id};
        case Keyed(opId, _) => if opId != "" { ops := ops + {opId}; }
        case OtherEntry =>
      }
    }
    assert ops == ServerOps(st.listed);
    var rounds := st.rounds;
    if rounds == [] && st.root.Some? {
      rounds := [Round(Some(st.current), [], st.root.value)];
    }
    n := CountRounds((id, t) => ServerClass(ops, id, t), rounds, st.current);
    SameClasses((id, t) => ServerClass(ops, id, t), ServerClasses(ServerOps(st.listed)), rounds, st.current);
  }

  /** _countTrackStatuses of the dashboard. */
  method CountOnDashboard(st: State) returns (n: Counts)
    ensures n == Tally(DashboardClasses(DashboardOps(st.listed)), st.rounds, st.current)
  {
    var ops: set<OpId> := {};
    for i := 0 to |st.listed|
      invariant ops == set k | 0 <= k < i && DashboardId(st.listed[k]).Some? :: DashboardId(st.listed[k]).value
    {
      match st.listed[i] {
        case Plain(id) => if id != "" { ops := ops + {id}; }
        case Keyed(opId, camelId) =>
          var id := if opId != "" then opId else camelId;
          if id != "" { ops := ops + {id}; }
        case OtherEntry =>
      }
    }
    assert ops == DashboardOps(st.listed);
    n := CountRounds((id, t) => BucketOf(TrackStatus(ops, id, t)), st.rounds, st.current);
    SameClasses((id, t) => BucketOf(TrackStatus(ops, id, t)), DashboardClasses(DashboardOps(st.listed)), st.rounds,
        st.current);
  }

  // ---------------------------------------------------------------- partition and order

  lemma ThreeParts<T>(a: set<T>, b: set<T>, c: set<T>)
    requires a !! b && a !! c && b !! c
    ensures |a + b + c| == |a| + |b| + |c|
  {
    assert a + b !! c;
  }

  /** The round lists `id` as shipped, or has a track for it that is decided or in the current
      round. */
  ghost predicate CountsHere(cls: Classes, r: Round, current: int, id: OpId) {
    r.Round? &&
    (id in r.shipped || (id in r.tracks && (!cls(id, r.tracks[id]).Open? || r.number == Some(current))))
  }

  /** The counted ids are those that some round counts. */
  lemma CountedIff(cls: Classes, rounds: seq<Round>, current: int, id: OpId)
    ensures id in Counted(cls, rounds, current) <==> exists r :: r in rounds && InRound(cls, r, current, id).Some?
    ensures id in Counted(cls, rounds, current) <==> exists r :: r in rounds && CountsHere(cls, r, current, id)
  {
    VerdictIff(cls, rounds, current, id);
    assert forall r :: CountsHere(cls, r, current, id) <==> InRound(cls, r, current, id).Some?;
  }

  /** In both ports a verdict decides and the status is not looked at; without a verdict the
      status counts as one; a track without either, or one that is no dictionary, is open. */
  lemma VerdictComesFirst(ops: set<OpId>, id: OpId, word: string, status: string, alias: string)
    requires word != ""
    ensures ServerClass(ops, id, Track(word, status, alias)) == ServerClass(ops, id, Track("", word, alias))
    ensures TrackStatus(ops, id, Track(word, status, alias)) == TrackStatus(ops, id, Track("", word, alias))
    ensures id !in ops ==> ServerClass(ops, id, Track("", "", alias)) == ServerClass(ops, id, NotADict) == Open
    ensures !IsShipped(ops, LookedUp(id, Track("", "", alias))) ==>
        BucketOf(TrackStatus(ops, id, Track("", "", alias))) == Open
    ensures !IsShipped(ops, id) ==> BucketOf(TrackStatus(ops, id, NotADict)) == Open
  {
    var decided, undecided := Track(word, status, alias), Track("", word, alias);
    assert Token(decided) == Token(undecided) == Upper(word) && LookedUp(id, decided) == LookedUp(id, undecided);
    NoWordMeansOpen("");
    assert Token(Track("", "", alias)) == "";
  }

  /** The words that decide, the same in both ports but for SHIPPED; an id listed as shipped
      needs none. */
  lemma DecidingWords(ops: set<OpId>, id: OpId, t: Track)
    ensures ServerClass(ops, id, t) == Shipped
            <==> id in ops || Token(t) in {"PASS", "PASSED", "GATED_PASS", "GATED-PASS", "SHIPPED"}
    ensures ServerClass(ops, id, t) == Failed <==> id !in ops && Token(t) in {"FAIL", "FAILED", "GPU_BLOCKED"}
    ensures var c, listed := BucketOf(TrackStatus(ops, id, t)), IsShipped(ops, LookedUp(id, t));
      && (c == Shipped <==> listed || Token(t) in {"PASS", "PASSED", "GATED_PASS", "GATED-PASS"})
      && (c == Failed <==> !listed && Token(t) in {"FAIL", "FAILED", "GPU_BLOCKED"})
  {
  }

  lemma NoWordMeansOpen(word: string)
    requires word == ""
    ensures word !in PassTokens && word != "SHIPPED" && word !in FailTokens
  {
  }

  /** Every counted id is counted once: the three counts add up to the number of counted ids. */
  lemma CountsPartition(cls: Classes, rounds: seq<Round>, current: int)
    ensures Total(Tally(cls, rounds, current)) == |Counted(cls, rounds, current)|
  {
    CountedIsUnion(cls, rounds, current);
    ThreeParts(With(cls, rounds, current, Shipped), With(cls, rounds, current, Failed),
        With(cls, rounds, current, Open));
  }

  lemma MoreRoundsCountMore(cls: Classes, rounds: seq<Round>, other: seq<Round>, current: int)
    requires forall r :: r in rounds ==> r in other
    ensures Counted(cls, rounds, current) <= Counted(cls, other, current)
  {
    forall id | id in Counted(cls, rounds, current) ensures id in Counted(cls, other, current) {
      CountedIff(cls, rounds, current, id);
      var r :| r in rounds && InRound(cls, r, current, id).Some?;
      assert r in other;
      CountedIff(cls, other, current, id);
    }
  }

  /** The total depends on which rounds there are, neither on their order nor on repeats. */
  lemma TotalIgnoresOrder(cls: Classes, rounds: seq<Round>, other: seq<Round>, current: int)
    requires forall r :: r in rounds <==> r in other
    ensures Counted(cls, rounds, current) == Counted(cls, other, current)
    ensures Total(Tally(cls, rounds, current)) == Total(Tally(cls, other, current))
  {
    MoreRoundsCountMore(cls, rounds, other, current);
    MoreRoundsCountMore(cls, other, rounds, current);
    CountsPartition(cls, rounds, current);
    CountsPartition(cls, other, current);
  }

  /** Later rounds change nothing about an id counted before: an optimization that failed
      once stays failed when it passes in a later round. */
  lemma EarlierRoundStands(cls: Classes, rounds: seq<Round>, later: seq<Round>, current: int, c: Class)
    ensures With(cls, rounds, current, c) <= With(cls, rounds + later, current, c)
    ensures forall id :: id in Counted(cls, rounds, current) ==>
              (id in With(cls, rounds, current, c) <==> id in With(cls, rounds + later, current, c))
  {
    forall id | id in Counted(cls, rounds, current)
      ensures id in With(cls, rounds, current, c) <==> id in With(cls, rounds + later, current, c) {
      VerdictSplits(cls, rounds, later, current, id);
      VerdictIff(cls, rounds + later, current, id);
    }
  }

  /** The rounds that count an id agree on its class. */
  predicate Agreed(cls: Classes, rounds: seq<Round>, current: int, id: OpId) {
    forall r, r' :: r in rounds && r' in rounds && InRound(cls, r, current, id).Some? &&
        InRound(cls, r', current, id).Some?
      ==> InRound(cls, r, current, id) == InRound(cls, r', current, id)
  }

  lemma {:induction false} VerdictIsSomeRounds(cls: Classes, rounds: seq<Round>, current: int, id: OpId)
    requires Verdict(cls, rounds, current, id).Some?
    ensures exists r :: r in rounds && InRound(cls, r, current, id) == Verdict(cls, rounds, current, id)
  {
    if InRound(cls, rounds[0], current, id).Some? {
      assert rounds[0] in rounds;
    } else {
      VerdictIsSomeRounds(cls, rounds[1..], current, id);
    }
  }

  /** The same rounds in some order give the same class to every id. */
  ghost predicate SameSplit(cls: Classes, rounds: seq<Round>, other: seq<Round>, current: int) {
    forall id :: Verdict(cls, other, current, id) == Verdict(cls, rounds, current, id)
  }

  lemma AgreedMeansSameSplit(cls: Classes, rounds: seq<Round>, other: seq<Round>, current: int)
    requires forall id :: Agreed(cls, rounds, current, id)
    requires multiset(other) == multiset(rounds)
    ensures SameSplit(cls, rounds, other, current)
  {
    forall r ensures r in rounds <==> r in other {
      assert r in multiset(rounds) <==> r in multiset(other);
    }
    forall id ensures Verdict(cls, other, current, id) == Verdict(cls, rounds, current, id) {
      VerdictIff(cls, rounds, current, id);
      VerdictIff(cls, other, current, id);
      if Verdict(cls, rounds, current, id).Some? {
        VerdictIsSomeRounds(cls, rounds, current, id);
        VerdictIsSomeRounds(cls, other, current, id);
        assert Agreed(cls, rounds, current, id);
      }
    }
  }

  /** The round moved to the front decides. */
  lemma MovedToFront(cls: Classes, rounds: seq<Round>, k: nat, current: int, id: OpId) returns (other: seq<Round>)
    requires k < |rounds| && InRound(cls, rounds[k], current, id).Some?
    ensures multiset(other) == multiset(rounds)
    ensures Verdict(cls, other, current, id) == InRound(cls, rounds[k], current, id)
  {
    other := [rounds[k]] + rounds[..k] + rounds[k + 1..];
    assert rounds == rounds[..k] + [rounds[k]] + rounds[k + 1..];
    assert other[0] == rounds[k];
  }

  /** How the total splits is the same in every order exactly when no two rounds count an id
      differently. */
  lemma SplitIgnoresOrderIff(cls: Classes, rounds: seq<Round>, current: int)
    ensures (forall other: seq<Round> :: multiset(other) == multiset(rounds) ==> SameSplit(cls, rounds, other, current))
            <==> forall id :: Agreed(cls, rounds, current, id)
  {
    if forall id :: Agreed(cls, rounds, current, id) {
      forall other: seq<Round> | multiset(other) == multiset(rounds) ensures SameSplit(cls, rounds, other, current) {
        AgreedMeansSameSplit(cls, rounds, other, current);
      }
    } else {
      var id :| !Agreed(cls, rounds, current, id);
      var r, r' :| r in rounds && r' in rounds && InRound(cls, r, current, id).Some? &&
          InRound(cls, r', current, id).Some?
        && InRound(cls, r, current, id) != InRound(cls, r', current, id);
      var k :| 0 <= k < |rounds| && rounds[k] == if InRound(cls, r, current, id) == Verdict(cls, rounds, current, id)
          then r' else r;
      var other := MovedToFront(cls, rounds, k, current, id);
      assert !SameSplit(cls, rounds, other, current);
    }
  }

  // ---------------------------------------------------------------- the two counters agree

  /** Counters that class every track of the rounds alike count alike. */
  lemma {:induction false} SameVerdicts(cls: Classes, cls': Classes, rounds: seq<Round>, current: int, id: OpId)
    requires forall r :: r in rounds && r.Round? && id in r.tracks ==> cls(id, r.tracks[id]) == cls'(id, r.tracks[id])
    ensures Verdict(cls, rounds, current, id) == Verdict(cls', rounds, current, id)
  {
    if rounds != [] {
      assert rounds[0] in rounds;
      assert InRound(cls, rounds[0], current, id) == InRound(cls', rounds[0], current, id);
      SameVerdicts(cls, cls', rounds[1..], current, id);
    }
  }

  lemma SameClasses(cls: Classes, cls': Classes, rounds: seq<Round>, current: int)
    requires forall r, id :: r in rounds && r.Round? && id in r.tracks ==>
        cls(id, r.tracks[id]) == cls'(id, r.tracks[id])
    ensures Tally(cls, rounds, current) == Tally(cls', rounds, current)
  {
    forall c ensures With(cls, rounds, current, c) == With(cls', rounds, current, c) {
      forall id ensures Verdict(cls, rounds, current, id) == Verdict(cls', rounds, current, id) {
        SameVerdicts(cls, cls', rounds, current, id);
      }
    }
  }

  lemma {:induction false} OneRoundDecides(cls: Classes, rounds: seq<Round>, current: int, id: OpId, k: nat)
    requires k < |rounds| && forall j :: 0 <= j < |rounds| && j != k ==> id !in IdsIn(rounds[j])
    ensures Verdict(cls, rounds, current, id) == InRound(cls, rounds[k], current, id)
  {
    if k > 0 {
      assert InRound(cls, rounds[0], current, id).None?;
      OneRoundDecides(cls, rounds[1..], current, id, k - 1);
    } else if InRound(cls, rounds[0], current, id).None? {
      VerdictIff(cls, rounds[1..], current, id);
      forall r | r in rounds[1..] ensures InRound(cls, r, current, id).None? {
        var j :| 0 <= j < |rounds[1..]| && rounds[1..][j] == r;
        assert r == rounds[j + 1];
      }
    }
  }

  ghost predicate AlikeEverywhere(cls: Classes, cls': Classes, rounds: seq<Round>, current: int) {
    forall k, id :: 0 <= k < |rounds| && id in IdsIn(rounds[k]) ==>
      InRound(cls, rounds[k], current, id) == InRound(cls', rounds[k], current, id)
  }

  /** Where no id comes up in two rounds, two counters class every id alike if and only if
      they count every id of every round alike. */
  lemma VerdictsAgreeIff(cls: Classes, cls': Classes, rounds: seq<Round>, current: int)
    requires forall i, j :: 0 <= i < j < |rounds| ==> IdsIn(rounds[i]) !! IdsIn(rounds[j])
    ensures (forall id :: Verdict(cls, rounds, current, id) == Verdict(cls', rounds, current, id))
            <==> AlikeEverywhere(cls, cls', rounds, current)
  {
    forall k, id | 0 <= k < |rounds| && id in IdsIn(rounds[k])
      ensures Verdict(cls, rounds, current, id) == InRound(cls, rounds[k], current, id)
      ensures Verdict(cls', rounds, current, id) == InRound(cls', rounds[k], current, id)
    {
      OneRoundDecides(cls, rounds, current, id, k);
      OneRoundDecides(cls', rounds, current, id, k);
    }
    if AlikeEverywhere(cls, cls', rounds, current) {
      forall id ensures Verdict(cls, rounds, current, id) == Verdict(cls', rounds, current, id) {
        VerdictIff(cls, rounds, current, id);
        VerdictIff(cls', rounds, current, id);
        if id in Ids(rounds) {
          var r :| r in rounds && id in IdsIn(r);
          var k :| 0 <= k < |rounds| && rounds[k] == r;
          assert Verdict(cls, rounds, current, id) == InRound(cls, rounds[k], current, id);
        }
      }
    } else {
      var k, id :| 0 <= k < |rounds| && id in IdsIn(rounds[k])
        && InRound(cls, rounds[k], current, id) != InRound(cls', rounds[k], current, id);
      assert Verdict(cls, rounds, current, id) != Verdict(cls', rounds, current, id);
    }
  }

  lemma TokensDiffer()
    ensures PassTokens !! FailTokens
    ensures "SHIPPED" !in PassTokens && "SHIPPED" !in FailTokens
    ensures "GATING_REQUIRED" !in PassTokens && "GATING_REQUIRED" !in FailTokens
    ensures "" !in PassTokens && "" !in FailTokens
  {
    assert |"PASS"| == 4 && |"PASSED"| == 6 && |"GATED_PASS"| == 10 && |"GATED-PASS"| == 10;
    assert |"FAIL"| == 4 && |"FAILED"| == 6 && |"GPU_BLOCKED"| == 11 && |"SHIPPED"| == 7 && |"GATING_REQUIRED"| == 15;
    assert "PASS"[0] != "FAIL"[0] && "PASSED"[0] != "FAILED"[0];
  }

  /** What trackStatus makes of a track that is not shipped by its id. */
  lemma BucketByToken(ops: set<OpId>, id: OpId, t: Track)
    requires !IsShipped(ops, LookedUp(id, t))
    ensures BucketOf(TrackStatus(ops, id, t)) ==
            if Token(t) in PassTokens then Shipped else if Token(t) in FailTokens then Failed else Open
  {
    TokensDiffer();
  }

  /** Exactly when the two ports class a track alike, whatever shipped ids each one has. */
  lemma TrackAgreesIff(ops: set<OpId>, shown: set<OpId>, id: OpId, t: Track)
    ensures var onServer, onDashboard := id in ops, IsShipped(shown, LookedUp(id, t));
      ServerClasses(ops)(id, t) == DashboardClasses(shown)(id, t) <==>
        if onServer == onDashboard then onServer || Token(t) != "SHIPPED"
        else Token(t) in PassTokens || (onDashboard && Token(t) == "SHIPPED")
  {
    TokensDiffer();
    if !IsShipped(shown, LookedUp(id, t)) {
      BucketByToken(shown, id, t);
    }
  }

  lemma CaseFolds(s: string)
    ensures Upper(Upper(s)) == Upper(s) && Upper(Lower(s)) == Upper(s)
  {
  }

  /** What a caller can check: no tracks at the root only, shipped entries that are non-empty
      strings or carry op_id, no empty id, no SHIPPED token, no shipped id that a track's id
      matches only up to case. */
  predicate WellFormed(st: State) {
    && (st.rounds == [] ==> st.root.None? || st.root.value == map[])
    && (forall e :: e in st.listed ==> e.OtherEntry? || (e.Plain? && e.id != "") || (e.Keyed? && e.opId != ""))
    && (forall r, id :: r in st.rounds && r.Round? && id in r.tracks ==>
          && id != "" && Token(r.tracks[id]) != "SHIPPED"
          && forall o :: o in ServerOps(st.listed) && Upper(o) == Upper(id) ==> o == id)
  }

  lemma SameOps(listed: seq<Entry>)
    requires forall e :: e in listed ==> e.OtherEntry? || (e.Plain? && e.id != "") || (e.Keyed? && e.opId != "")
    ensures ServerOps(listed) == DashboardOps(listed)
  {
    forall e | e in listed ensures ServerId(e) == DashboardId(e) {
    }
  }

  /** The two counters return the same three numbers on every well-formed state. */
  lemma CountersAgree(st: State)
    requires WellFormed(st)
    ensures Tally(ServerClasses(ServerOps(st.listed)), ServerRounds(st), st.current) ==
            Tally(DashboardClasses(DashboardOps(st.listed)), st.rounds, st.current)
  {
    var ops := ServerOps(st.listed);
    SameOps(st.listed);
    forall r, id | r in st.rounds && r.Round? && id in r.tracks
      ensures ServerClasses(ops)(id, r.tracks[id]) == DashboardClasses(ops)(id, r.tracks[id]) {
      CaseFolds(id);
      TrackAgreesIff(ops, ops, id, r.tracks[id]);
    }
    SameClasses(ServerClasses(ops), DashboardClasses(ops), st.rounds, st.current);
    if st.rounds == [] && st.root.Some? {
      NoTracksNoCount(ServerClasses(ops), st.current);
    }
  }

  lemma NoTracksNoCount(cls: Classes, current: int)
    ensures Tally(cls, [], current) == Tally(cls, [Round(Some(current), [], map[])], current) == Counts(0, 0, 0)
  {
    assert forall rounds: seq<Round>, c :: Ids(rounds) == {} ==> With(cls, rounds, current, c) == {};
    assert Ids([]) == {} && Ids([Round(Some(current), [], map[])]) == {};
  }

  /** On a state with tracks at the root only, the server counts every one of them and the
      dashboard none: they agree exactly when there are none. */
  lemma RootTracksAgreeIff(st: State)
    requires st.rounds == [] && st.root.Some?
    ensures (Tally(ServerClasses(ServerOps(st.listed)), ServerRounds(st), st.current) ==
             Tally(DashboardClasses(DashboardOps(st.listed)), st.rounds, st.current)) <==> st.root.value == map[]
  {
    var cls := ServerClasses(ServerOps(st.listed));
    NoTracksNoCount(cls, st.current);
    NoTracksNoCount(DashboardClasses(DashboardOps(st.listed)), st.current);
    if st.root.value != map[] {
      CurrentTracksCount(cls, st.root.value, st.current);
    }
  }

  lemma SomeCounted(cls: Classes, rounds: seq<Round>, current: int, id: OpId)
    requires Verdict(cls, rounds, current, id).Some?
    ensures Total(Tally(cls, rounds, current)) > 0
  {
    VerdictIff(cls, rounds, current, id);
    CountsPartition(cls, rounds, current);
    assert id in Counted(cls, rounds, current);
  }

  /** In the current round every track counts one way or another. */
  lemma CurrentTracksCount(cls: Classes, tracks: map<OpId, Track>, current: int)
    requires tracks != map[]
    ensures Total(Tally(cls, [Round(Some(current), [], tracks)], current)) > 0
  {
    var id :| id in tracks;
    SomeCounted(cls, [Round(Some(current), [], tracks)], current, id);
  }
}
