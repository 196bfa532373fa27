/** Workload bucket tags: `ilA_olB_bsC`, `bsC`, or a bare archived `C`. */
module Buckets {
  import opened Options
  import opened Decimals

  datatype Lens = Lens(input: nat, output: nat)

  /** `tag` is the exact key; `lens` is None for homogeneous buckets. */
  datatype Bucket = Bucket(tag: string, lens: Option<Lens>, batch: nat, legacy: bool)

  /** The workload a bucket stands for, whatever its spelling. */
  datatype Identity = Identity(lens: Option<Lens>, batch: nat)

  function IdOf(b: Bucket): Identity {
    Identity(b.lens, b.batch)
  }

  // ---------------------------------------------------------------- parsing

  function DigitRun(s: string): (n: nat)
    ensures n <= |s|
    ensures AllDigits(s[..n])
    ensures n < |s| ==> !IsDigit(s[n])
  {
    if s == "" || !IsDigit(s[0]) then 0 else 1 + DigitRun(s[1..])
  }

  datatype Piece = Piece(digits: string, rest: string)

  /** A literal followed by as many digits as there are, at least one. */
  function Field(literal: string, s: string): Option<Piece> {
    if !(literal <= s) then None
    else
      var tail := s[|literal|..];
      var n := DigitRun(tail);
      if n == 0 then None else Some(Piece(tail[..n], tail[n..]))
  }

  datatype Het = Het(il: string, ol: string, bs: string)

  function MatchHet(tag: string): Option<Het> {
    match Field("il", tag)
    case None => None
    case Some(a) =>
      match Field("_ol", a.rest)
      case None => None
      case Some(b) =>
        match Field("_bs", b.rest)
        case None => None
        case Some(c) => if c.rest == "" then Some(Het(a.digits, b.digits, c.digits)) else None
  }

  /** The whole tag is the literal and one number. */
  function MatchSingle(literal: string, tag: string): Option<string> {
    match Field(literal, tag)
    case None => None
    case Some(c) => if c.rest == "" then Some(c.digits) else None
  }

  function Parse(tag: string): Option<Bucket> {
    match MatchHet(tag)
    case Some(h) =>
      HetDigits(tag);
      var il, ol, bs := Value(h.il), Value(h.ol), Value(h.bs);
      if il < 1 || ol < 1 || bs < 1 then None else Some(Bucket(tag, Some(Lens(il, ol)), bs, false))
    case None =>
      match MatchSingle("bs", tag)
      case Some(d) =>
        SingleDigits("bs", tag);
        if Value(d) < 1 then None else Some(Bucket(tag, None, Value(d), false))
      case None =>
        match MatchSingle("", tag)
        case None => None
        case Some(d) =>
          SingleDigits("", tag);
          if Value(d) < 1 then None else Some(Bucket(tag, None, Value(d), true))
  }

  lemma FieldIs(literal: string, s: string)
    ensures Field(literal, s).Some? ==>
              var p := Field(literal, s).value;
              s == literal + (p.digits + p.rest) && Digits(p.digits) && (p.rest == "" || !IsDigit(p.rest[0]))
  {
  }

  lemma {:induction false} DigitRunIs(d: string, rest: string)
    requires AllDigits(d)
    requires rest == "" || !IsDigit(rest[0])
    ensures DigitRun(d + rest) == |d|
  {
    if d != "" {
      DigitRunIs(d[1..], rest);
      assert (d + rest)[1..] == d[1..] + rest;
    } else {
      assert d + rest == rest;
    }
  }

  lemma FieldFinds(literal: string, d: string, rest: string)
    requires Digits(d) && (rest == "" || !IsDigit(rest[0]))
    ensures Field(literal, literal + (d + rest)) == Some(Piece(d, rest))
  {
    var s := literal + (d + rest);
    DigitRunIs(d, rest);
    assert s[|literal|..] == d + rest;
    assert (d + rest)[..|d|] == d && (d + rest)[|d|..] == rest;
    assert s[..|literal|] == literal;
  }

  lemma HetDigits(tag: string)
    ensures MatchHet(tag).Some? ==> var h := MatchHet(tag).value;
      Digits(h.il) && Digits(h.ol) && Digits(h.bs) && tag == HetTag(h.il, h.ol, h.bs)
  {
    if MatchHet(tag).Some? {
      FieldIs("il", tag);
      var a := Field("il", tag).value;
      FieldIs("_ol", a.rest);
      var b := Field("_ol", a.rest).value;
      FieldIs("_bs", b.rest);
      var c := Field("_bs", b.rest).value;
      assert c.digits + c.rest == c.digits;
    }
  }

  lemma SingleDigits(literal: string, tag: string)
    ensures MatchSingle(literal, tag).Some? ==>
        Digits(MatchSingle(literal, tag).value) && tag == literal + MatchSingle(literal, tag).value
  {
    FieldIs(literal, tag);
  }

  function HetTag(il: string, ol: string, bs: string): string {
    "il" + (il + ("_ol" + (ol + ("_bs" + bs))))
  }

  lemma HetFound(il: string, ol: string, bs: string)
    requires Digits(il) && Digits(ol) && Digits(bs)
    ensures MatchHet(HetTag(il, ol, bs)) == Some(Het(il, ol, bs))
  {
    assert bs == bs + "";
    FieldFinds("_bs", bs, "");
    FieldFinds("_ol", ol, "_bs" + bs);
    FieldFinds("il", il, "_ol" + (ol + ("_bs" + bs)));
  }

  lemma SingleFound(literal: string, d: string)
    requires Digits(d)
    ensures MatchSingle(literal, literal + d) == Some(d)
  {
    assert d == d + "";
    FieldFinds(literal, d, "");
  }

  /** The three patterns, independently of how the parser walks the tag. */
  ghost predicate Spells(tag: string, id: Identity, legacy: bool) {
    match id.lens
    case Some(l) =>
      && !legacy
      && (exists a, b, c :: Digits(a) && Digits(b) && Digits(c) && tag == HetTag(a, b, c)
                            && Value(a) == l.input && Value(b) == l.output && Value(c) == id.batch)
    case None =>
      exists c :: Digits(c) && Value(c) == id.batch && tag == (if legacy then c else "bs" + c)
  }

  predicate Positive(id: Identity) {
    id.batch >= 1 && (id.lens.Some? ==> id.lens.value.input >= 1 && id.lens.value.output >= 1)
  }

  lemma HetParses(a: string, b: string, c: string)
    requires Digits(a) && Digits(b) && Digits(c) && Value(a) > 0 && Value(b) > 0 && Value(c) > 0
    ensures Parse(HetTag(a, b, c)) == Some(Bucket(HetTag(a, b, c), Some(Lens(Value(a), Value(b))), Value(c), false))
  {
    HetFound(a, b, c);
  }

  lemma NotHet(tag: string)
    requires tag != "" && tag[0] != 'i'
    ensures MatchHet(tag) == None
  {
  }

  lemma SingleParses(c: string, legacy: bool)
    requires Digits(c) && Value(c) > 0
    ensures var tag := if legacy then c else "bs" + c;
      Parse(tag) == Some(Bucket(tag, None, Value(c), legacy))
  {
    var tag := if legacy then c else "bs" + c;
    NotHet(tag);
    if legacy {
      assert "" + c == c;
      SingleFound("", c);
      assert !("bs" <= tag);
    } else {
      SingleFound("bs", c);
    }
  }

  /** The parser accepts exactly the tags that spell positive numbers, and reads them right. */
  lemma ParseIsSpelling(tag: string, id: Identity, legacy: bool)
    ensures Parse(tag) == Some(Bucket(tag, id.lens, id.batch, legacy)) <==> Spells(tag, id, legacy) && Positive(id)
  {
    if Spells(tag, id, legacy) && Positive(id) {
      match id.lens
      case Some(l) =>
        var a, b, c :| Digits(a) && Digits(b) && Digits(c) && tag == HetTag(a, b, c)
                       && Value(a) == l.input && Value(b) == l.output && Value(c) == id.batch;
        HetParses(a, b, c);
      case None =>
        var c :| Digits(c) && Value(c) == id.batch && tag == (if legacy then c else "bs" + c);
        SingleParses(c, legacy);
    }
    if Parse(tag) == Some(Bucket(tag, id.lens, id.batch, legacy)) {
      ParsedSpells(tag);
    }
  }

  lemma ParsedSpells(tag: string)
    requires Parse(tag).Some?
    ensures var b := Parse(tag).value; Spells(tag, IdOf(b), b.legacy) && Positive(IdOf(b))
  {
    if MatchHet(tag).Some? {
      HetDigits(tag);
    } else if MatchSingle("bs", tag).Some? {
      SingleDigits("bs", tag);
    } else {
      SingleDigits("", tag);
      assert tag == MatchSingle("", tag).value;
    }
  }

  lemma ParseKeepsTag(tag: string)
    ensures Parse(tag).Some? ==> Parse(tag).value.tag == tag && Positive(IdOf(Parse(tag).value))
  {
  }

  // ---------------------------------------------------------------- canonical tags

  function CanonicalTag(id: Identity): string {
    match id.lens
    case None => "bs" + Numeral(id.batch)
    case Some(l) => HetTag(Numeral(l.input), Numeral(l.output), Numeral(id.batch))
  }

  /** Printing a workload canonically and parsing it again gives it back. */
  lemma CanonicalRoundTrip(id: Identity)
    requires Positive(id)
    ensures Parse(CanonicalTag(id)) == Some(Bucket(CanonicalTag(id), id.lens, id.batch, false))
  {
    NumeralValue(id.batch);
    if id.lens.Some? {
      NumeralValue(id.lens.value.input);
      NumeralValue(id.lens.value.output);
    }
    assert Spells(CanonicalTag(id), id, false);
    ParseIsSpelling(CanonicalTag(id), id, false);
  }

  /** A numeral with leading zeros sorts before the one without, whatever follows either. */
  lemma PaddedSortsFirst(d: string, u: string, v: string)
    requires Digits(d) && Value(d) > 0 && StrLe(u, v)
    ensures StrLe(d + u, Numeral(Value(d)) + v)
  {
    var k := PaddedNumeral(d);
    var n := Numeral(Value(d));
    if k == 0 {
      assert d == n;
      StrLeAfterPrefix(n, u, v);
    } else {
      NumeralStartsNonZero(Value(d));
      assert (d + u)[0] == '0' && (n + v)[0] == n[0];
    }
  }

  lemma HetSortsBefore(a: string, b: string, c: string)
    requires Digits(a) && Digits(b) && Digits(c) && Value(a) > 0 && Value(b) > 0 && Value(c) > 0
    ensures StrLe(HetTag(a, b, c), HetTag(Numeral(Value(a)), Numeral(Value(b)), Numeral(Value(c))))
  {
    var n1, n2, n3 := Numeral(Value(a)), Numeral(Value(b)), Numeral(Value(c));
    PaddedSortsFirst(c, "", "");
    assert c + "" == c && n3 + "" == n3;
    StrLeAfterPrefix("_bs", c, n3);
    var u1, v1 := "_bs" + c, "_bs" + n3;
    PaddedSortsFirst(b, u1, v1);
    StrLeAfterPrefix("_ol", b + u1, n2 + v1);
    var u2, v2 := "_ol" + (b + u1), "_ol" + (n2 + v1);
    PaddedSortsFirst(a, u2, v2);
    StrLeAfterPrefix("il", a + u2, n1 + v2);
  }

  /** Of all spellings of one workload, the canonical one sorts last. */
  lemma CanonicalSortsLast(tag: string)
    requires Parse(tag).Some?
    ensures StrLe(tag, CanonicalTag(IdOf(Parse(tag).value)))
  {
    var b := Parse(tag).value;
    if MatchHet(tag).Some? {
      HetDigits(tag);
      var h := MatchHet(tag).value;
      HetSortsBefore(h.il, h.ol, h.bs);
    } else if MatchSingle("bs", tag).Some? {
      SingleDigits("bs", tag);
      var d := MatchSingle("bs", tag).value;
      PaddedSortsFirst(d, "", "");
      assert d + "" == d && Numeral(b.batch) + "" == Numeral(b.batch);
      StrLeAfterPrefix("bs", d, Numeral(b.batch));
    } else {
      SingleDigits("", tag);
      assert tag == MatchSingle("", tag).value;
      assert tag[0] < 'b' && CanonicalTag(IdOf(b))[0] == 'b';
    }
  }

  // ---------------------------------------------------------------- sorted records

  function InputKey(b: Bucket): int {
    if b.lens.Some? then b.lens.value.input else -1
  }

  function OutputKey(b: Bucket): int {
    if b.lens.Some? then b.lens.value.output else -1
  }

  /** The sort key of bucket records, compared as a tuple. */
  predicate Before(a: Bucket, b: Bucket) {
    InputKey(a) < InputKey(b) || (InputKey(a) == InputKey(b) &&
      (OutputKey(a) < OutputKey(b) || (OutputKey(a) == OutputKey(b) &&
        (a.batch < b.batch || (a.batch == b.batch && StrLe(a.tag, b.tag) && a.tag != b.tag)))))
  }

  lemma BeforeIsStrict(a: Bucket, b: Bucket, c: Bucket)
    ensures !Before(a, a)
    ensures Before(a, b) && Before(b, c) ==> Before(a, c)
    ensures Before(a, b) ==> !Before(b, a)
    ensures a.tag != b.tag ==> Before(a, b) || Before(b, a)
  {
    StrLeTotal(a.tag, b.tag);
    StrLeTotal(b.tag, c.tag);
    if StrLe(a.tag, b.tag) && StrLe(b.tag, c.tag) {
      StrLeTransitive(a.tag, b.tag, c.tag);
    }
  }

  /** A bucket without sequence lengths goes before any with them, and of the others the
      shorter input, then the shorter output, then the smaller batch. */
  lemma FirstBuckets(a: Bucket, b: Bucket)
    ensures a.lens.None? && b.lens.Some? ==> Before(a, b)
    ensures a.lens.None? && b.lens.None? && a.batch < b.batch ==> Before(a, b)
    ensures a.lens.Some? && b.lens.Some? && a.lens.value.input < b.lens.value.input ==> Before(a, b)
    ensures (a.lens.Some? && b.lens.Some? && a.lens.value.input == b.lens.value.input
             && a.lens.value.output < b.lens.value.output) ==> Before(a, b)
    ensures a.lens == b.lens && a.batch < b.batch ==> Before(a, b)
    ensures a.lens == b.lens && a.batch == b.batch && a.tag != b.tag ==> (Before(a, b) <==> StrLe(a.tag, b.tag))
  {
  }

  predicate Sorted(rs: seq<Bucket>) {
    forall i, j :: 0 <= i < j < |rs| ==> Before(rs[i], rs[j])
  }

  function Insert(b: Bucket, rs: seq<Bucket>): seq<Bucket> {
    if rs == [] then [b]
    else if Before(b, rs[0]) then [b] + rs
    else [rs[0]] + Insert(b, rs[1..])
  }

  /** The records of a map with these keys. */
  function Records(tags: seq<string>): seq<Bucket> {
    if tags == [] then []
    else
      var rest := Records(tags[1..]);
      match Parse(tags[0]) case None => rest case Some(b) => Insert(b, rest)
  }

  ghost predicate Distinct(tags: seq<string>) {
    forall i, j :: 0 <= i < j < |tags| ==> tags[i] != tags[j]
  }

  lemma {:induction false} InsertIs(b: Bucket, rs: seq<Bucket>)
    requires Sorted(rs) && forall r :: r in rs ==> r.tag != b.tag
    ensures Sorted(Insert(b, rs))
    ensures forall r :: r in Insert(b, rs) <==> r == b || r in rs
  {
    if rs != [] {
      if Before(b, rs[0]) {
        forall j | 0 <= j < |rs| ensures Before(b, rs[j]) { BeforeIsStrict(b, rs[0], rs[j]); }
      } else {
        BeforeIsStrict(b, rs[0], b);
        InsertIs(b, rs[1..]);
        var t := Insert(b, rs[1..]);
        forall j | 0 <= j < |t| ensures Before(rs[0], t[j]) { assert t[j] in t; }
      }
    }
  }

  /** The records are sorted, and there is one for each key that parses. */
  lemma {:induction false} RecordsAre(tags: seq<string>)
    requires Distinct(tags)
    ensures Sorted(Records(tags))
    ensures forall r :: r in Records(tags) <==> r.tag in tags && Parse(r.tag) == Some(r)
  {
    if tags != [] {
      RecordsAre(tags[1..]);
      ParseKeepsTag(tags[0]);
      if Parse(tags[0]).Some? {
        InsertIs(Parse(tags[0]).value, Records(tags[1..]));
      }
    }
  }

  lemma TailWithout(a: seq<Bucket>)
    requires Sorted(a) && a != []
    ensures forall r :: r in a[1..] <==> r in a && r != a[0]
  {
    forall r | r in a[1..] ensures r != a[0] {
      var i :| 0 <= i < |a[1..]| && a[1..][i] == r;
      BeforeIsStrict(a[0], a[i + 1], a[0]);
    }
  }

  lemma {:induction false} SortedIsUnique(a: seq<Bucket>, b: seq<Bucket>)
    requires Sorted(a) && Sorted(b) && forall r :: r in a <==> r in b
    ensures a == b
  {
    assert b != [] ==> b[0] in b;
    if a != [] {
      assert a[0] in b && b != [] && b[0] in a;
      BeforeIsStrict(a[0], b[0], a[0]);
      assert a[0] == b[0];
      TailWithout(a);
      TailWithout(b);
      SortedIsUnique(a[1..], b[1..]);
    }
  }

  /** The records do not depend on the order in which the map was filled. */
  lemma RecordsIgnoreOrder(tags: seq<string>, other: seq<string>)
    requires Distinct(tags) && Distinct(other) && forall t :: t in tags <==> t in other
    ensures Records(tags) == Records(other)
  {
    RecordsAre(tags);
    RecordsAre(other);
    SortedIsUnique(Records(tags), Records(other));
  }
}
