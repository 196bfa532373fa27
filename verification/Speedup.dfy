/** Speedups between two latency maps at their first shared workload, and the campaign's
    cumulative speedup built on them. */
module Speedup {
  import opened Options
  import opened Json
  import opened Buckets
  import Decimals

  // ---------------------------------------------------------------- the identity index

  /** The dictionary comprehension over sorted records: a later record with the same
      identity replaces an earlier one. */
  function Index(records: seq<Bucket>): map<Identity, Bucket> {
    if records == [] then map[]
    else Index(records[..|records| - 1])[IdOf(records[|records| - 1]) := records[|records| - 1]]
  }

  /** The naive lookup: scan all records and keep the last one that fits. */
  function LastWith(records: seq<Bucket>, id: Identity): Option<Bucket> {
    if records == [] then None
    else if IdOf(records[|records| - 1]) == id then Some(records[|records| - 1])
    else LastWith(records[..|records| - 1], id)
  }

  lemma {:induction false} IndexIsLastWith(records: seq<Bucket>, id: Identity)
    ensures id in Index(records) <==> LastWith(records, id).Some?
    ensures id in Index(records) ==> Index(records)[id] == LastWith(records, id).value
  {
    if records != [] {
      IndexIsLastWith(records[..|records| - 1], id);
    }
  }

  /** What the last record with an identity is, in a sorted list. */
  lemma {:induction false} LastWithIsGreatest(records: seq<Bucket>, id: Identity)
    requires Sorted(records)
    ensures LastWith(records, id).None? ==> forall r :: r in records ==> IdOf(r) != id
    ensures LastWith(records, id).Some? ==> var b := LastWith(records, id).value;
      b in records && IdOf(b) == id && forall r :: r in records && IdOf(r) == id ==> r == b || Before(r, b)
  {
    if records != [] {
      var front, last := records[..|records| - 1], records[|records| - 1];
      LastWithIsGreatest(front, id);
      assert forall r :: r in records ==> r in front || r == last;
      forall r | r in front ensures r in records && Before(r, last) {
        var i :| 0 <= i < |front| && front[i] == r;
        assert records[i] == r;
      }
    }
  }

  // ---------------------------------------------------------------- one pair of maps

  /** The ratio of the two averages, if both entries hold positive ones. */
  function Ratio(base: Dict, combined: Dict, b: Bucket, c: Bucket): Option<real> {
    var be, ce := Get(base, b.tag), Get(combined, c.tag);
    if !be.Obj? || !ce.Obj? then None
    else
      var x, y := Get(be.fields, "avg"), Get(ce.fields, "avg");
      if IsPositive(x) && IsPositive(y) then Some(AsReal(x) / AsReal(y)) else None
  }

  function Shared(base: Dict, combined: Dict, b: Bucket, records: seq<Bucket>): Option<real> {
    match LastWith(records, IdOf(b)) case None => None case Some(c) => Ratio(base, combined, b, c)
  }

  /** The naive nested scan: the first baseline bucket, in order, with a usable partner. */
  function FirstUsable(base: Dict, combined: Dict, from: seq<Bucket>, records: seq<Bucket>): Option<real> {
    if from == [] then None
    else if Shared(base, combined, from[0], records).Some? then Shared(base, combined, from[0], records)
    else FirstUsable(base, combined, from[1..], records)
  }

  function SpeedupOf(base: Json, combined: Json): Option<real> {
    if !base.Obj? || !combined.Obj? then None
    else FirstUsable(base.fields, combined.fields, Records(KeysOf(base.fields)), Records(KeysOf(combined.fields)))
  }

  /** The dictionary comprehension. */
  method BuildIndex(records: seq<Bucket>) returns (byIdentity: map<Identity, Bucket>)
    ensures byIdentity == Index(records)
  {
    byIdentity := map[];
    var i := 0;
    while i < |records|
      invariant 0 <= i <= |records|
      invariant byIdentity == Index(records[..i])
    {
      byIdentity := byIdentity[IdOf(records[i]) := records[i]];
      assert records[..i + 1][..i] == records[..i];
      i := i + 1;
    }
    assert records[..|records|] == records;
  }

  /** The code: build the index once, then look each baseline bucket up in it. */
  method SpeedupAtFirstSharedBucket(base: Json, combined: Json) returns (r: Option<real>)
    ensures r == SpeedupOf(base, combined)
  {
    if !base.Obj? || !combined.Obj? {
      return None;
    }
    var records := Records(KeysOf(combined.fields));
    var byIdentity := BuildIndex(records);
    var from := Records(KeysOf(base.fields));
    var i := 0;
    while i < |from|
      invariant 0 <= i <= |from|
      invariant FirstUsable(base.fields, combined.fields, from[i..], records)
                == FirstUsable(base.fields, combined.fields, from, records)
    {
      IndexIsLastWith(records, IdOf(from[i]));
      assert from[i..][1..] == from[i + 1..];
      if IdOf(from[i]) in byIdentity {
        r := Ratio(base.fields, combined.fields, from[i], byIdentity[IdOf(from[i])]);
        if r.Some? {
          return;
        }
      }
      i := i + 1;
    }
    r := None;
  }

  /** The entry under a tag is a dictionary with a positive average. */
  predicate HasAverage(d: Dict, tag: string) {
    Get(d, tag).Obj? && IsPositive(Get(Get(d, tag).fields, "avg"))
  }

  function Average(d: Dict, tag: string): (x: real)
    requires HasAverage(d, tag)
    ensures x > 0.0
  {
    AsReal(Get(Get(d, tag).fields, "avg"))
  }

  lemma RatioIs(base: Dict, combined: Dict, b: Bucket, c: Bucket)
    ensures Ratio(base, combined, b, c).Some? <==> HasAverage(base, b.tag) && HasAverage(combined, c.tag)
    ensures Ratio(base, combined, b, c).Some? ==>
              Quotient(base, combined, b.tag, c.tag, Ratio(base, combined, b, c).value)
  {
  }

  /** A pair of keys that the speedup may be taken from: same workload, baseline spelling
      `tag`, combined spelling the last one in order, and under both a dictionary with a
      positive average. */
  ghost predicate Pairs(base: Dict, combined: Dict, tag: string, partner: string) {
    && Has(base, tag) && Has(combined, partner)
    && Parse(tag).Some? && Parse(partner).Some?
    && IdOf(Parse(tag).value) == IdOf(Parse(partner).value)
    && (forall t :: Has(combined, t) && Parse(t).Some? && IdOf(Parse(t).value) == IdOf(Parse(tag).value)
          ==> t == partner || Before(Parse(t).value, Parse(partner).value))
    && HasAverage(base, tag) && HasAverage(combined, partner)
  }

  ghost predicate LeastTag(base: Dict, combined: Dict, tag: string)
    requires Parse(tag).Some?
  {
    forall t, p :: Pairs(base, combined, t, p) ==> t == tag || Before(Parse(tag).value, Parse(t).value)
  }

  /** `x` is how many times the combined average of the least pair goes into the baseline's. */
  ghost predicate Gives(base: Dict, combined: Dict, x: real) {
    exists t, p :: LeastPair(base, combined, t, p) && Quotient(base, combined, t, p, x)
  }

  ghost predicate LeastPair(base: Dict, combined: Dict, t: string, p: string) {
    Pairs(base, combined, t, p) && LeastTag(base, combined, t)
  }

  predicate Quotient(base: Dict, combined: Dict, t: string, p: string, x: real) {
    HasAverage(base, t) && HasAverage(combined, p) && x * Average(combined, p) == Average(base, t)
  }

  /** The whole meaning of the lookup: the answer times the combined average is the baseline
      average, at the least baseline bucket that has a usable partner of the very same workload;
      there is no answer when there is no such bucket. */
  lemma SpeedupIsLeastPair(base: Dict, combined: Dict)
    requires UniqueKeys(base) && UniqueKeys(combined)
    ensures var r := SpeedupOf(Obj(base), Obj(combined));
      && (r.None? <==> forall t, p :: !Pairs(base, combined, t, p))
      && (r.Some? ==> Gives(base, combined, r.value))
  {
    var from, records := Records(KeysOf(base)), Records(KeysOf(combined));
    KeysAreDistinct(base);
    RecordsAre(KeysOf(base));
    FirstUsableIsLeast(base, combined, from, records);
    var r := SpeedupOf(Obj(base), Obj(combined));
    if r.None? {
      forall t, p ensures !Pairs(base, combined, t, p) {
        if Pairs(base, combined, t, p) {
          PairIsRecord(base, combined, t, p);
        }
      }
    } else {
      var b :| b in from && Shared(base, combined, b, records) == r && LeastUsable(base, combined, from, records, b);
      LeastRecordGives(base, combined, b);
    }
  }

  lemma LeastRecordGives(base: Dict, combined: Dict, b: Bucket)
    requires UniqueKeys(base) && UniqueKeys(combined) && b in Records(KeysOf(base))
    requires Shared(base, combined, b, Records(KeysOf(combined))).Some?
    requires LeastUsable(base, combined, Records(KeysOf(base)), Records(KeysOf(combined)), b)
    ensures Gives(base, combined, Shared(base, combined, b, Records(KeysOf(combined))).value)
  {
    RecordIsPair(base, combined, b);
    var r := Shared(base, combined, b, Records(KeysOf(combined)));
    var p :| Pairs(base, combined, b.tag, p) && r == Ratio(base, combined, b, Parse(p).value);
    LeastUsableIsLeastTag(base, combined, b);
    ParseKeepsTag(p);
    RatioIs(base, combined, b, Parse(p).value);
    assert LeastPair(base, combined, b.tag, p) && Quotient(base, combined, b.tag, p, r.value);
  }

  /** A baseline record is usable exactly when its tag is in a pair, and then gives its ratio. */
  lemma RecordIsPair(base: Dict, combined: Dict, b: Bucket)
    requires UniqueKeys(base) && UniqueKeys(combined) && b in Records(KeysOf(base))
    ensures Parse(b.tag) == Some(b)
    ensures var shared := Shared(base, combined, b, Records(KeysOf(combined)));
      shared.Some? ==> exists p :: Pairs(base, combined, b.tag, p) && shared == Ratio(base, combined, b, Parse(p).value)
  {
    KeysAreDistinct(base);
    KeysAreDistinct(combined);
    RecordsAre(KeysOf(base));
    RecordsAre(KeysOf(combined));
    InKeys(base, b.tag);
    SharedIsPair(base, combined, b, Records(KeysOf(combined)));
  }

  lemma PairIsRecord(base: Dict, combined: Dict, t: string, p: string)
    requires UniqueKeys(base) && UniqueKeys(combined) && Pairs(base, combined, t, p)
    ensures var b := Parse(t).value;
      b.tag == t && b in Records(KeysOf(base)) && Shared(base, combined, b, Records(KeysOf(combined))).Some?
  {
    var b := Parse(t).value;
    KeysAreDistinct(base);
    KeysAreDistinct(combined);
    RecordsAre(KeysOf(base));
    RecordsAre(KeysOf(combined));
    ParseKeepsTag(t);
    InKeys(base, t);
    SharedIsPair(base, combined, b, Records(KeysOf(combined)));
  }

  lemma LeastUsableIsLeastTag(base: Dict, combined: Dict, b: Bucket)
    requires UniqueKeys(base) && UniqueKeys(combined) && Parse(b.tag) == Some(b)
    requires LeastUsable(base, combined, Records(KeysOf(base)), Records(KeysOf(combined)), b)
    ensures LeastTag(base, combined, b.tag)
  {
    forall t, p | Pairs(base, combined, t, p) ensures t == b.tag || Before(b, Parse(t).value) {
      PairIsRecord(base, combined, t, p);
    }
  }

  ghost predicate LeastUsable(base: Dict, combined: Dict, from: seq<Bucket>, records: seq<Bucket>, b: Bucket) {
    forall c :: c in from && Shared(base, combined, c, records).Some? ==> c == b || Before(b, c)
  }

  lemma {:induction false} FirstUsableIsLeast(base: Dict, combined: Dict, from: seq<Bucket>, records: seq<Bucket>)
    requires Sorted(from)
    ensures var r := FirstUsable(base, combined, from, records);
      && (r.None? <==> forall b :: b in from ==> Shared(base, combined, b, records).None?)
      && (r.Some? ==> exists b ::
          b in from && Shared(base, combined, b, records) == r && LeastUsable(base, combined, from, records, b))
  {
    if from != [] {
      assert from[0] in from;
      if Shared(base, combined, from[0], records).Some? {
        forall c | c in from ensures c == from[0] || Before(from[0], c) {
          var i :| 0 <= i < |from| && from[i] == c;
        }
        assert LeastUsable(base, combined, from, records, from[0]);
      } else {
        FirstUsableIsLeast(base, combined, from[1..], records);
        assert forall b :: b in from <==> b == from[0] || b in from[1..];
        if FirstUsable(base, combined, from, records).Some? {
          var b :| b in from[1..] && Shared(base, combined, b, records) == FirstUsable(base, combined, from, records)
                   && LeastUsable(base, combined, from[1..], records, b);
          assert LeastUsable(base, combined, from, records, b);
        }
      }
    }
  }

  lemma SharedIsPair(base: Dict, combined: Dict, b: Bucket, records: seq<Bucket>)
    requires Has(base, b.tag) && Parse(b.tag) == Some(b)
    requires Sorted(records) && forall r :: r in records <==> r.tag in KeysOf(combined) && Parse(r.tag) == Some(r)
    ensures Shared(base, combined, b, records).Some? <==> exists p :: Pairs(base, combined, b.tag, p)
    ensures Shared(base, combined, b, records).Some? ==>
              exists p :: Pairs(base, combined, b.tag, p)
                          && Shared(base, combined, b, records) == Ratio(base, combined, b, Parse(p).value)
  {
    LastWithIsGreatest(records, IdOf(b));
    forall t | Has(combined, t) && Parse(t).Some?
      ensures Parse(t).value in records && Parse(t).value.tag == t
    {
      ParseKeepsTag(t);
      InKeys(combined, t);
    }
    if Shared(base, combined, b, records).Some? {
      var c := LastWith(records, IdOf(b)).value;
      RatioIs(base, combined, b, c);
      InKeys(combined, c.tag);
      assert Pairs(base, combined, b.tag, c.tag);
    }
    if p :| Pairs(base, combined, b.tag, p) {
      var q := Parse(p).value;
      assert q in records && IdOf(q) == IdOf(b);
      var c := LastWith(records, IdOf(b)).value;
      InKeys(combined, c.tag);
      BeforeIsStrict(q, c, q);
      assert c == q;
      ParseKeepsTag(p);
      RatioIs(base, combined, b, c);
    }
  }

  lemma InKeys(d: Dict, k: string)
    ensures k in KeysOf(d) <==> Has(d, k)
  {
    if Has(d, k) {
      var i :| 0 <= i < |d| && d[i].key == k;
      assert KeysOf(d)[i] == k;
    }
  }

  lemma KeysAreDistinct(d: Dict)
    requires UniqueKeys(d)
    ensures Distinct(KeysOf(d))
  {
  }

  /** The canonical spelling in the combined map is the one used whenever it is there. */
  lemma CanonicalSpellingWins(base: Dict, combined: Dict, tag: string, partner: string)
    requires Pairs(base, combined, tag, partner)
    requires Has(combined, CanonicalTag(IdOf(Parse(tag).value)))
    ensures partner == CanonicalTag(IdOf(Parse(tag).value))
  {
    var id := IdOf(Parse(tag).value);
    var best := CanonicalTag(id);
    ParseKeepsTag(tag);
    ParseKeepsTag(partner);
    CanonicalRoundTrip(id);
    CanonicalSortsLast(partner);
    assert best == partner || Before(Parse(best).value, Parse(partner).value);
    Decimals.StrLeTotal(best, partner);
  }

  /** It does happen: a bare archived key and the canonical one for the same batch size. */
  lemma CanonicalBeatsArchived(n: nat, entry: Json)
    requires n > 0 && entry.Obj? && IsPositive(Get(entry.fields, "avg"))
    ensures var archived, canonical := Decimals.Numeral(n), "bs" + Decimals.Numeral(n);
      var base, combined := Only(archived, entry).fields, Only(archived, entry).fields + Only(canonical, entry).fields;
      && UniqueKeys(base) && UniqueKeys(combined)
      && Has(combined, archived) && Parse(archived).Some? && IdOf(Parse(archived).value) == Identity(None, n)
      && Has(combined, CanonicalTag(Identity(None, n)))
      && Pairs(base, combined, archived, canonical) && archived != canonical
  {
    var archived, best := Decimals.Numeral(n), "bs" + Decimals.Numeral(n);
    var base, combined := Only(archived, entry).fields, Only(archived, entry).fields + Only(best, entry).fields;
    Decimals.NumeralValue(n);
    SingleParses(archived, true);
    CanonicalRoundTrip(Identity(None, n));
    CanonicalSortsLast(archived);
    assert |best| == |archived| + 2;
    assert base[0].key == archived && combined[0].key == archived && combined[1].key == best;
    assert combined[1..] == Only(best, entry).fields;
    GetOnly(best, entry);
  }

  /** Neither map's insertion order matters. */
  lemma OrderIsIrrelevant(base: Dict, combined: Dict, base': Dict, combined': Dict)
    requires UniqueKeys(base) && UniqueKeys(combined) && UniqueKeys(base') && UniqueKeys(combined')
    requires forall f :: f in base <==> f in base'
    requires forall f :: f in combined <==> f in combined'
    ensures SpeedupOf(Obj(base), Obj(combined)) == SpeedupOf(Obj(base'), Obj(combined'))
  {
    SameReads(base, base');
    SameReads(combined, combined');
    KeysAreDistinct(base);
    KeysAreDistinct(base');
    KeysAreDistinct(combined);
    KeysAreDistinct(combined');
    RecordsIgnoreOrder(KeysOf(base), KeysOf(base'));
    RecordsIgnoreOrder(KeysOf(combined), KeysOf(combined'));
    SameRatios(base, combined, base', combined', Records(KeysOf(base)), Records(KeysOf(combined)));
  }

  lemma SameReads(d: Dict, d': Dict)
    requires UniqueKeys(d) && UniqueKeys(d') && forall f :: f in d <==> f in d'
    ensures forall k :: Get(d, k) == Get(d', k)
    ensures forall k :: k in KeysOf(d) <==> k in KeysOf(d')
  {
    forall k ensures Get(d, k) == Get(d', k) && (k in KeysOf(d) <==> k in KeysOf(d')) {
      SameKey(d, d', k);
      SameKey(d', d, k);
      InKeys(d, k);
      InKeys(d', k);
    }
  }

  lemma SameKey(d: Dict, d': Dict, k: string)
    requires UniqueKeys(d) && UniqueKeys(d') && forall f :: f in d ==> f in d'
    ensures Has(d, k) ==> Has(d', k) && Get(d, k) == Get(d', k)
    ensures !Has(d', k) ==> Get(d, k) == Get(d', k)
  {
    GetOfAbsent(d, k);
    GetOfAbsent(d', k);
    if Has(d, k) {
      var i :| 0 <= i < |d| && d[i].key == k;
      assert d[i] in d;
      var j :| 0 <= j < |d'| && d'[j] == d[i];
      GetAt(d, i);
      GetAt(d', j);
    }
  }

  lemma {:induction false} SameRatios(base: Dict, combined: Dict, base': Dict, combined': Dict, from: seq<Bucket>,
      records: seq<Bucket>)
    requires forall k :: Get(base, k) == Get(base', k)
    requires forall k :: Get(combined, k) == Get(combined', k)
    ensures FirstUsable(base, combined, from, records) == FirstUsable(base', combined', from, records)
  {
    if from != [] {
      SameRatios(base, combined, base', combined', from[1..], records);
    }
  }

  // ---------------------------------------------------------------- cumulative speedup

  /** Rounding to four decimals, ties to even, of an exact ratio. */
  function Round4(x: real): real {
    var y := x * 10000.0;
    var f := y.Floor;
    var d := y - f as real;
    var n := if d < 0.5 || (d == 0.5 && f % 2 == 0) then f else f + 1;
    n as real / 10000.0
  }

  /** What one round has to offer against round 1. */
  function RoundSpeedup(r1: Json, rnd: Json): Option<real> {
    if !rnd.Obj? then None
    else
      var integ := Get(rnd.fields, "integration");
      if !integ.Obj? then None
      else
        match SpeedupOf(r1, Get(integ.fields, "e2e_latency_combined"))
        case Some(x) => Some(x)
        case None => SpeedupOf(r1, Get(integ.fields, "combined_e2e_result"))
  }

  /** Round 1's latency map, when the campaign has a usable one. */
  function Anchor(campaign: Dict): Option<Json> {
    var rounds := Get(campaign, "rounds");
    if !rounds.Arr? || rounds.items == [] || !rounds.items[0].Obj? then None
    else
      var baseline := Get(rounds.items[0].fields, "baseline");
      if !baseline.Obj? then None
      else
        var latency := Get(baseline.fields, "e2e_latency");
        if !latency.Obj? || latency.fields == [] || Records(KeysOf(latency.fields)) == [] then None else Some(latency)
  }

  /** What each round has to offer, in order. */
  function Answers(r1: Json, rounds: seq<Json>): (xs: seq<Option<real>>)
    ensures |xs| == |rounds|
  {
    seq(|rounds|, i requires 0 <= i < |rounds| => RoundSpeedup(r1, rounds[i]))
  }

  function LastAnswer(xs: seq<Option<real>>): Option<real> {
    if xs == [] then None
    else if xs[|xs| - 1].Some? then xs[|xs| - 1]
    else LastAnswer(xs[..|xs| - 1])
  }

  function Cumulative(campaign: Dict): real {
    match Anchor(campaign)
    case None => 1.0
    case Some(r1) => Rounded(LastAnswer(Answers(r1, Get(campaign, "rounds").items)))
  }

  function Rounded(answer: Option<real>): real {
    match answer case None => 1.0 case Some(x) => Round4(x)
  }

  ghost predicate IsLast(xs: seq<Option<real>>, i: int) {
    0 <= i < |xs| && xs[i].Some? && forall j :: i < j < |xs| ==> xs[j].None?
  }

  lemma {:induction false} LastAnswerIs(xs: seq<Option<real>>)
    ensures LastAnswer(xs).None? <==> forall i :: 0 <= i < |xs| ==> xs[i].None?
    ensures forall i :: IsLast(xs, i) ==> LastAnswer(xs) == xs[i]
    ensures LastAnswer(xs).Some? ==> exists i :: IsLast(xs, i)
  {
    if xs != [] && xs[|xs| - 1].None? {
      var front := xs[..|xs| - 1];
      LastAnswerIs(front);
      forall i | IsLast(xs, i) ensures LastAnswer(xs) == xs[i] {
        assert IsLast(front, i);
      }
      if LastAnswer(xs).Some? {
        var i :| IsLast(front, i);
        assert IsLast(xs, i);
      }
    } else if xs != [] {
      assert IsLast(xs, |xs| - 1);
    }
  }

  lemma RoundedLast(xs: seq<Option<real>>)
    ensures (forall i :: 0 <= i < |xs| ==> xs[i].None?) ==> Rounded(LastAnswer(xs)) == 1.0
    ensures forall i :: IsLast(xs, i) ==> Rounded(LastAnswer(xs)) == Round4(xs[i].value)
    ensures Rounded(LastAnswer(xs)) == 1.0 <==> forall i :: IsLast(xs, i) ==> Round4(xs[i].value) == 1.0
  {
    LastAnswerIs(xs);
  }

  /** The cumulative speedup is the rounded answer of the latest round that has one, and 1.0
      exactly when no round has one or that answer rounds to 1.0. */
  lemma CumulativeIsLatest(campaign: Dict, xs: seq<Option<real>>)
    requires Anchor(campaign).Some? && xs == Answers(Anchor(campaign).value, Get(campaign, "rounds").items)
    ensures (forall i :: 0 <= i < |xs| ==> xs[i].None?) ==> Cumulative(campaign) == 1.0
    ensures forall i :: IsLast(xs, i) ==> Cumulative(campaign) == Round4(xs[i].value)
    ensures Cumulative(campaign) == 1.0 <==> forall i :: IsLast(xs, i) ==> Round4(xs[i].value) == 1.0
  {
    RoundedLast(xs);
    assert Cumulative(campaign) == Rounded(LastAnswer(xs));
  }

  /** Round 1 has a bucket with a positive average at all. */
  ghost predicate HasUsable(base: Dict) {
    exists t :: Has(base, t) && UsableAt(base, t)
  }

  predicate UsableAt(base: Dict, t: string) {
    Parse(t).Some? && HasAverage(base, t)
  }

  /** A round with this integration and this legacy result in it. */
  function RoundWith(integ: Dict, legacy: Json): Json {
    Only("integration", Obj(Set(integ, "combined_e2e_result", legacy)))
  }

  lemma RoundWithIs(r1: Json, integ: Dict, legacy: Json)
    ensures var combined := SpeedupOf(r1, Get(integ, "e2e_latency_combined"));
      RoundSpeedup(r1, RoundWith(integ, legacy)) == if combined.Some? then combined else SpeedupOf(r1, legacy)
  {
    KeysDiffer();
    GetSet(integ, "combined_e2e_result", legacy, "e2e_latency_combined");
    GetOnly("integration", Obj(Set(integ, "combined_e2e_result", legacy)));
  }

  lemma KeysDiffer()
    ensures "combined_e2e_result" != "e2e_latency_combined"
  {
    assert "combined_e2e_result"[0] != "e2e_latency_combined"[0];
  }

  lemma NothingUsable(base: Dict, legacy: Json)
    requires UniqueKeys(base) && !HasUsable(base)
    ensures SpeedupOf(Obj(base), legacy) == None
  {
    if legacy.Obj? {
      var from, records := Records(KeysOf(base)), Records(KeysOf(legacy.fields));
      KeysAreDistinct(base);
      RecordsAre(KeysOf(base));
      forall b | b in from ensures Shared(base, legacy.fields, b, records).None? {
        InKeys(base, b.tag);
        assert !UsableAt(base, b.tag);
        forall c { RatioIs(base, legacy.fields, b, c); }
      }
      FirstUsableIsLeast(base, legacy.fields, from, records);
    }
  }

  /** A legacy result that repeats one usable bucket of round 1. */
  lemma RepeatedBucketAnswers(base: Dict, t: string)
    requires UniqueKeys(base) && Has(base, t) && UsableAt(base, t)
    ensures SpeedupOf(Obj(base), Only(t, Get(base, t))).Some?
  {
    var legacy := Only(t, Get(base, t)).fields;
    ParseKeepsTag(t);
    assert legacy[0].key == t;
    assert Pairs(base, legacy, t, t);
    SpeedupIsLeastPair(base, legacy);
  }

  /** What a round says depends on its legacy result exactly when round 1 has a usable bucket
      and the combined map shares none with it. */
  lemma LegacyMattersIff(base: Dict, combined: Dict, integ: Dict)
    requires UniqueKeys(base) && UniqueKeys(combined) && Get(integ, "e2e_latency_combined") == Obj(combined)
    ensures (exists v, w ::
        RoundSpeedup(Obj(base), RoundWith(integ, v)) != RoundSpeedup(Obj(base), RoundWith(integ, w)))
            <==> HasUsable(base) && forall t, p :: !Pairs(base, combined, t, p)
  {
    var r1 := Obj(base);
    SpeedupIsLeastPair(base, combined);
    forall v ensures RoundSpeedup(r1, RoundWith(integ, v)) ==
                     if SpeedupOf(r1, Obj(combined)).Some? then SpeedupOf(r1, Obj(combined)) else SpeedupOf(r1, v) {
      RoundWithIs(r1, integ, v);
    }
    if !HasUsable(base) {
      forall v ensures SpeedupOf(r1, v) == None { NothingUsable(base, v); }
    } else {
      var t :| Has(base, t) && UsableAt(base, t);
      RepeatedBucketAnswers(base, t);
      assert SpeedupOf(r1, Null) == None;
    }
  }

  /** The code: walk the rounds backwards and stop at the first that answers. */
  method ComputeCumulativeSpeedup(campaign: Dict) returns (x: real)
    ensures x == Cumulative(campaign)
  {
    var rounds := Get(campaign, "rounds");
    if !Anchor(campaign).Some? {
      return 1.0;
    }
    var r1 := Anchor(campaign).value;
    var i := |rounds.items|;
    ghost var xs := Answers(r1, rounds.items);
    assert xs[..i] == xs;
    while i > 0
      invariant 0 <= i <= |rounds.items|
      invariant LastAnswer(xs[..i]) == LastAnswer(xs)
    {
      i := i - 1;
      assert xs[..i + 1][..i] == xs[..i];
      var rnd := rounds.items[i];
      if rnd.Obj? && Get(rnd.fields, "integration").Obj? {
        var integ := Get(rnd.fields, "integration").fields;
        var s := SpeedupAtFirstSharedBucket(r1, Get(integ, "e2e_latency_combined"));
        if s.Some? {
          return Round4(s.value);
        }
        // The legacy result is consulted only when it is a dictionary.
        s := SpeedupAtFirstSharedBucket(r1, Get(integ, "combined_e2e_result"));
        if s.Some? {
          return Round4(s.value);
        }
      }
    }
    x := 1.0;
  }
}
