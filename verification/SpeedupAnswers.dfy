/** What the speedups mean to a reader: quotients of averages, rounded to four decimals, from
    the latest round that has one to offer. */
module SpeedupAnswers {
  import opened Options
  import opened Json
  import opened Buckets
  import opened Speedup

  // ---------------------------------------------------------------- one pair of maps

  /** There is one least pair. */
  lemma LeastPairIsUnique(base: Dict, combined: Dict, t: string, p: string, u: string, q: string)
    requires LeastPair(base, combined, t, p) && LeastPair(base, combined, u, q)
    ensures t == u && p == q
  {
    ParseKeepsTag(t);
    ParseKeepsTag(u);
    ParseKeepsTag(p);
    ParseKeepsTag(q);
    BeforeIsStrict(Parse(t).value, Parse(u).value, Parse(t).value);
    BeforeIsStrict(Parse(p).value, Parse(q).value, Parse(p).value);
  }

  lemma QuotientIsOne(base: Dict, combined: Dict, t: string, p: string, x: real, y: real)
    requires Quotient(base, combined, t, p, x) && Quotient(base, combined, t, p, y)
    ensures x == y
  {
    SameQuotient(x, y, Average(combined, p));
  }

  lemma SameQuotient(x: real, y: real, a: real)
    requires a > 0.0 && x * a == y * a
    ensures x == y
  {
    assert (x - y) * a == 0.0;
  }

  lemma GivesOne(base: Dict, combined: Dict, x: real, y: real)
    requires Gives(base, combined, x) && Gives(base, combined, y)
    ensures x == y
  {
    var t, p :| LeastPair(base, combined, t, p) && Quotient(base, combined, t, p, x);
    var u, q :| LeastPair(base, combined, u, q) && Quotient(base, combined, u, q, y);
    LeastPairIsUnique(base, combined, t, p, u, q);
    QuotientIsOne(base, combined, t, p, x, y);
  }

  /** The lookup answers x exactly when the least pair gives x. */
  lemma SpeedupIsIff(base: Dict, combined: Dict, x: real)
    requires UniqueKeys(base) && UniqueKeys(combined)
    ensures SpeedupOf(Obj(base), Obj(combined)) == Some(x) <==> Gives(base, combined, x)
  {
    SpeedupIsLeastPair(base, combined);
    if Gives(base, combined, x) {
      var t, p :| LeastPair(base, combined, t, p) && Quotient(base, combined, t, p, x);
      GivesOne(base, combined, x, SpeedupOf(Obj(base), Obj(combined)).value);
    }
  }

  /** What is answered at the least pair. */
  lemma AnswerAt(base: Dict, combined: Dict, t: string, p: string) returns (x: real)
    requires UniqueKeys(base) && UniqueKeys(combined) && LeastPair(base, combined, t, p)
    ensures SpeedupOf(Obj(base), Obj(combined)) == Some(x) && Quotient(base, combined, t, p, x)
  {
    SpeedupIsLeastPair(base, combined);
    assert Pairs(base, combined, t, p);
    x := SpeedupOf(Obj(base), Obj(combined)).value;
    var u, q :| LeastPair(base, combined, u, q) && Quotient(base, combined, u, q, x);
    LeastPairIsUnique(base, combined, t, p, u, q);
  }

  /** An answer above one means that the combined run took less time than the baseline. */
  lemma FasterTakesLess(base: Dict, combined: Dict, t: string, p: string)
    requires UniqueKeys(base) && UniqueKeys(combined) && LeastPair(base, combined, t, p)
    ensures HasAverage(base, t) && HasAverage(combined, p)
    ensures var r := SpeedupOf(Obj(base), Obj(combined));
      r.Some? && r.value > 0.0 && (r.value > 1.0 <==> Average(combined, p) < Average(base, t))
  {
    var x := AnswerAt(base, combined, t, p);
    CompareQuotient(base, combined, t, p, x);
  }

  lemma CompareQuotient(base: Dict, combined: Dict, t: string, p: string, x: real)
    requires Quotient(base, combined, t, p, x)
    ensures x > 0.0 && (x > 1.0 <==> Average(combined, p) < Average(base, t))
  {
    CompareToOne(x, Average(combined, p), Average(base, t));
  }

  lemma CompareToOne(x: real, a: real, b: real)
    requires a > 0.0 && b > 0.0 && x * a == b
    ensures x > 0.0 && (x > 1.0 <==> a < b)
  {
    assert x <= 0.0 ==> x * a <= 0.0;
    assert x > 1.0 ==> x * a > a;
    assert x <= 1.0 ==> x * a <= a;
  }

  /** The same tags, each average times `k`. */
  ghost predicate Scaled(base: Dict, base': Dict, k: real) {
    forall t :: ScaledAt(base, base', k, t)
  }

  ghost predicate ScaledAt(base: Dict, base': Dict, k: real, t: string) {
    && (Has(base, t) <==> Has(base', t)) && (HasAverage(base, t) <==> HasAverage(base', t))
    && (HasAverage(base, t) ==> Average(base', t) == k * Average(base, t))
  }

  lemma SamePairs(base: Dict, base': Dict, combined: Dict, k: real)
    requires Scaled(base, base', k)
    ensures forall t, p :: Pairs(base, combined, t, p) <==> Pairs(base', combined, t, p)
  {
    forall t, p ensures Pairs(base, combined, t, p) <==> Pairs(base', combined, t, p) {
      assert ScaledAt(base, base', k, t);
    }
  }

  lemma SameLeastPair(base: Dict, base': Dict, combined: Dict, k: real, t: string, p: string)
    requires Scaled(base, base', k) && LeastPair(base, combined, t, p)
    ensures LeastPair(base', combined, t, p)
  {
    SamePairs(base, base', combined, k);
  }

  lemma ScaledQuotient(base: Dict, base': Dict, combined: Dict, k: real, t: string, p: string, x: real, y: real)
    requires Scaled(base, base', k) && Quotient(base, combined, t, p, x) && Quotient(base', combined, t, p, y)
    ensures y == k * x
  {
    assert ScaledAt(base, base', k, t);
    assert (k * x) * Average(combined, p) == k * (x * Average(combined, p));
    SameQuotient(k * x, y, Average(combined, p));
  }

  /** Scaling the baseline averages neither makes nor loses an answer. */
  lemma ScalingKeepsAnswer(base: Dict, base': Dict, combined: Dict, k: real)
    requires UniqueKeys(base) && UniqueKeys(base') && UniqueKeys(combined) && Scaled(base, base', k)
    ensures SpeedupOf(Obj(base), Obj(combined)).Some? <==> SpeedupOf(Obj(base'), Obj(combined)).Some?
  {
    SamePairs(base, base', combined, k);
    NoPairsNoAnswer(base, combined);
    NoPairsNoAnswer(base', combined);
  }

  /** Scaling every baseline average scales the answer. */
  lemma ScalingScales(base: Dict, base': Dict, combined: Dict, k: real) returns (x: real, y: real)
    requires UniqueKeys(base) && UniqueKeys(base') && UniqueKeys(combined) && Scaled(base, base', k)
    requires SpeedupOf(Obj(base), Obj(combined)).Some?
    ensures SpeedupOf(Obj(base), Obj(combined)) == Some(x) && SpeedupOf(Obj(base'), Obj(combined)) == Some(y) &&
        y == k * x
  {
    var t, p := TheLeastPair(base, combined);
    x := AnswerAt(base, combined, t, p);
    SameLeastPair(base, base', combined, k, t, p);
    y := AnswerAt(base', combined, t, p);
    ScaledQuotient(base, base', combined, k, t, p, x, y);
  }

  lemma NoPairsNoAnswer(base: Dict, combined: Dict)
    requires UniqueKeys(base) && UniqueKeys(combined)
    ensures SpeedupOf(Obj(base), Obj(combined)).None? <==> forall t, p :: !Pairs(base, combined, t, p)
  {
    SpeedupIsLeastPair(base, combined);
  }

  lemma TheLeastPair(base: Dict, combined: Dict) returns (t: string, p: string)
    requires UniqueKeys(base) && UniqueKeys(combined) && SpeedupOf(Obj(base), Obj(combined)).Some?
    ensures LeastPair(base, combined, t, p)
  {
    SpeedupIsLeastPair(base, combined);
    t, p :| LeastPair(base, combined, t, p) &&
        Quotient(base, combined, t, p, SpeedupOf(Obj(base), Obj(combined)).value);
  }

  // ---------------------------------------------------------------- rounding

  /** Rounding gives the nearest number with four decimals, the even one of two. */
  lemma RoundsToFourDecimals(x: real)
    ensures exists n: int :: Round4(x) == n as real / 10000.0 && Nearest(x, n)
  {
    var y := x * 10000.0;
    var f := y.Floor;
    var d := y - f as real;
    var n := if d < 0.5 || (d == 0.5 && f % 2 == 0) then f else f + 1;
    assert Round4(x) == n as real / 10000.0;
    assert -0.5 <= n as real - y <= 0.5;
    assert Nearest(x, n);
  }

  /** No other integer is nearer to ten thousand times x, nor as near unless this one is even. */
  predicate Nearest(x: real, n: int) {
    -0.5 <= n as real - x * 10000.0 <= 0.5 &&
        (n as real - x * 10000.0 == 0.5 || n as real - x * 10000.0 == -0.5 ==> n % 2 == 0)
  }

  // ---------------------------------------------------------------- rounds

  ghost predicate HasPair(base: Dict, map_: Json) {
    map_.Obj? && exists t, p :: Pairs(base, map_.fields, t, p)
  }

  /** A round offers x: it has an integration whose combined map gives x, or whose combined map
      has no pair with round 1 and whose legacy result gives x. */
  ghost predicate Offers(base: Dict, rnd: Json, x: real) {
    && rnd.Obj? && Get(rnd.fields, "integration").Obj?
    && var integ := Get(rnd.fields, "integration").fields;
       var combined, legacy := Get(integ, "e2e_latency_combined"), Get(integ, "combined_e2e_result");
       || (combined.Obj? && Gives(base, combined.fields, x))
       || (!HasPair(base, combined) && legacy.Obj? && Gives(base, legacy.fields, x))
  }

  /** No map in the round repeats a key. */
  ghost predicate MapsUnique(rnd: Json) {
    rnd.Obj? && Get(rnd.fields, "integration").Obj? ==>
      var integ := Get(rnd.fields, "integration").fields;
      && UniqueKeys(AsDict(Get(integ, "e2e_latency_combined"))) && UniqueKeys(AsDict(Get(integ, "combined_e2e_result")))
  }

  lemma RoundOffersIff(base: Dict, rnd: Json, x: real)
    requires UniqueKeys(base) && MapsUnique(rnd)
    ensures RoundSpeedup(Obj(base), rnd) == Some(x) <==> Offers(base, rnd, x)
  {
    if rnd.Obj? && Get(rnd.fields, "integration").Obj? {
      var integ := Get(rnd.fields, "integration").fields;
      var combined, legacy := Get(integ, "e2e_latency_combined"), Get(integ, "combined_e2e_result");
      if combined.Obj? {
        SpeedupIsLeastPair(base, combined.fields);
        SpeedupIsIff(base, combined.fields, x);
      }
      if legacy.Obj? {
        SpeedupIsIff(base, legacy.fields, x);
      }
    }
  }

  /** Round 1's latency map, when the campaign is well enough formed to have a usable one. */
  ghost predicate AnchoredAt(campaign: Dict, base: Dict) {
    && Get(campaign, "rounds").Arr? && Get(campaign, "rounds").items != []
    && var r1 := Get(campaign, "rounds").items[0];
       && r1.Obj? && Get(r1.fields, "baseline").Obj?
       && Get(Get(r1.fields, "baseline").fields, "e2e_latency") == Obj(base)
       && exists t :: Has(base, t) && Parse(t).Some?
  }

  lemma AnchorIs(campaign: Dict, base: Dict)
    requires UniqueKeys(base)
    ensures Anchor(campaign) == Some(Obj(base)) <==> AnchoredAt(campaign, base)
  {
    KeysAreDistinct(base);
    RecordsAre(KeysOf(base));
    if t :| Has(base, t) && Parse(t).Some? {
      ParseKeepsTag(t);
      InKeys(base, t);
      assert Parse(t).value in Records(KeysOf(base));
    }
    if Records(KeysOf(base)) != [] {
      var b := Records(KeysOf(base))[0];
      assert b in Records(KeysOf(base));
      InKeys(base, b.tag);
    }
  }

  /** The cumulative speedup is what the latest round that offers anything offers, to four
      decimals; it is 1.0 when no round offers anything or round 1 has no usable map. */
  lemma CumulativeMeans(campaign: Dict, base: Dict)
    requires AnchoredAt(campaign, base) && UniqueKeys(base)
    requires forall i :: 0 <= i < |Get(campaign, "rounds").items| ==> MapsUnique(Get(campaign, "rounds").items[i])
    ensures var rounds := Get(campaign, "rounds").items;
      && (forall i, x :: LatestOffer(base, rounds, i, x) ==> Cumulative(campaign) == Round4(x))
      && ((forall i, x :: 0 <= i < |rounds| ==> !Offers(base, rounds[i], x)) ==> Cumulative(campaign) == 1.0)
  {
    var rounds := Get(campaign, "rounds").items;
    AnchorIs(campaign, base);
    var xs := Answers(Obj(base), rounds);
    CumulativeIsLatest(campaign, xs);
    forall i, x | 0 <= i < |rounds| ensures xs[i] == Some(x) <==> Offers(base, rounds[i], x) {
      RoundOffersIff(base, rounds[i], x);
    }
    forall i | 0 <= i < |xs| && xs[i].Some? ensures Offers(base, rounds[i], xs[i].value) {
      assert xs[i] == Some(xs[i].value);
    }
    forall i, x | LatestOffer(base, rounds, i, x) ensures Cumulative(campaign) == Round4(x) {
      assert xs[i] == Some(x);
      assert forall j :: i < j < |xs| ==> xs[j].None?;
      assert IsLast(xs, i);
    }
    if forall i, x :: 0 <= i < |rounds| ==> !Offers(base, rounds[i], x) {
      assert forall i :: 0 <= i < |xs| ==> xs[i].None?;
    }
  }

  ghost predicate LatestOffer(base: Dict, rounds: seq<Json>, i: int, x: real) {
    0 <= i < |rounds| && Offers(base, rounds[i], x) && forall j, y :: i < j < |rounds| ==> !Offers(base, rounds[j], y)
  }

  lemma NoAnchorNoSpeedup(campaign: Dict)
    requires Anchor(campaign).None?
    ensures Cumulative(campaign) == 1.0
  {
  }
}
