/** JSON values as Python holds them: a dictionary remembers its insertion order, assigning
    to a present key keeps its place, and booleans are numbers. */
module Json {
  datatype Json =
    | Null
    | Bool(b: bool)
    | Num(n: real)
    | Str(s: string)
    | Arr(items: seq<Json>)
    | Obj(fields: Dict)

  datatype Field = Field(key: string, value: Json)

  type Dict = seq<Field>

  predicate Has(d: Dict, k: string) {
    exists i :: 0 <= i < |d| && d[i].key == k
  }

  /** dict.get: None when the key is absent. */
  function Get(d: Dict, k: string): Json {
    if d == [] then Null else if d[0].key == k then d[0].value else Get(d[1..], k)
  }

  /** d[k] = v. */
  function Set(d: Dict, k: string, v: Json): Dict {
    if d == [] then [Field(k, v)]
    else if d[0].key == k then [Field(k, v)] + d[1..]
    else [d[0]] + Set(d[1..], k, v)
  }

  function KeysOf(d: Dict): (keys: seq<string>)
    ensures |keys| == |d|
  {
    seq(|d|, i requires 0 <= i < |d| => d[i].key)
  }

  ghost predicate UniqueKeys(d: Dict) {
    forall i, j :: 0 <= i < j < |d| ==> d[i].key != d[j].key
  }

  /** isinstance(j, (int, float)), which Python's booleans satisfy. */
  predicate IsNumber(j: Json) {
    j.Num? || j.Bool?
  }

  function AsReal(j: Json): real
    requires IsNumber(j)
  {
    match j case Num(n) => n case Bool(b) => if b then 1.0 else 0.0
  }

  predicate IsPositive(j: Json) {
    IsNumber(j) && AsReal(j) > 0.0
  }

  predicate Truthy(j: Json) {
    match j
    case Null => false
    case Bool(b) => b
    case Num(n) => n != 0.0
    case Str(s) => s != ""
    case Arr(items) => items != []
    case Obj(fields) => fields != []
  }

  /** The dictionary itself, or an empty one in place of anything else. */
  function AsDict(j: Json): Dict {
    if j.Obj? then j.fields else []
  }

  lemma {:induction false} GetSet(d: Dict, k: string, v: Json, other: string)
    ensures Get(Set(d, k, v), k) == v
    ensures other != k ==> Get(Set(d, k, v), other) == Get(d, other)
    ensures Has(Set(d, k, v), k)
  {
    if d != [] && d[0].key != k {
      GetSet(d[1..], k, v, other);
      var t := Set(d[1..], k, v);
      var i :| 0 <= i < |t| && t[i].key == k;
      assert Set(d, k, v)[i + 1].key == k;
    } else {
      assert Set(d, k, v)[0].key == k;
    }
  }

  /** Writing back what is there changes nothing, and only that changes nothing. */
  lemma {:induction false} SetSame(d: Dict, k: string, v: Json)
    ensures Set(d, k, v) == d <==> Has(d, k) && Get(d, k) == v
  {
    if d == [] {
    } else if d[0].key == k {
      assert d == [d[0]] + d[1..];
      assert Has(d, k);
      assert Set(d, k, v)[0] == Field(k, v);
    } else {
      SetSame(d[1..], k, v);
      assert d == [d[0]] + d[1..];
      assert Set(d, k, v)[1..] == Set(d[1..], k, v);
      if Has(d, k) {
        var i :| 0 <= i < |d| && d[i].key == k;
        assert d[1..][i - 1].key == k;
      }
      if Has(d[1..], k) {
        var i :| 0 <= i < |d[1..]| && d[1..][i].key == k;
        assert d[i + 1].key == k;
      }
    }
  }

  lemma {:induction false} GetOfAbsent(d: Dict, k: string)
    ensures !Has(d, k) ==> Get(d, k) == Null
  {
    if d != [] {
      GetOfAbsent(d[1..], k);
      if Has(d[1..], k) {
        var i :| 0 <= i < |d[1..]| && d[1..][i].key == k;
        assert d[i + 1].key == k;
      }
    }
  }

  lemma {:induction false} GetAt(d: Dict, i: nat)
    requires UniqueKeys(d) && i < |d|
    ensures Get(d, d[i].key) == d[i].value
  {
    if i > 0 {
      GetAt(d[1..], i - 1);
    }
  }

  lemma {:induction false} SetAt(d: Dict, i: nat, v: Json)
    requires UniqueKeys(d) && i < |d|
    ensures Set(d, d[i].key, v) == d[i := Field(d[i].key, v)]
  {
    var changed := Field(d[i].key, v);
    if i == 0 {
      assert [changed] + d[1..] == d[0 := changed];
    } else {
      assert d[1..][i - 1] == d[i] && d[0].key != d[i].key;
      SetAt(d[1..], i - 1, v);
      assert [d[0]] + d[1..][i - 1 := changed] == d[i := changed];
    }
  }

  lemma {:induction false} SetKeepsOthers(d: Dict, k: string, v: Json, j: string)
    ensures Has(Set(d, k, v), j) <==> j == k || Has(d, j)
  {
    var t := Set(d, k, v);
    if d == [] {
      assert t[0].key == k;
    } else if d[0].key == k {
      assert t[0].key == k;
      assert forall i :: 0 <= i < |d| ==> t[i].key == d[i].key;
    } else {
      SetKeepsOthers(d[1..], k, v, j);
      assert t[1..] == Set(d[1..], k, v);
      HasSplits(t, j);
      HasSplits(d, j);
    }
  }

  lemma HasSplits(d: Dict, k: string)
    requires d != []
    ensures Has(d, k) <==> d[0].key == k || Has(d[1..], k)
  {
    if Has(d, k) && d[0].key != k {
      var i :| 0 <= i < |d| && d[i].key == k;
      assert d[1..][i - 1].key == k;
    }
    if Has(d[1..], k) {
      var i :| 0 <= i < |d[1..]| && d[1..][i].key == k;
      assert d[i + 1].key == k;
    }
  }

  /** A value read out of a dictionary is a proper part of it, or None. */
  lemma {:induction false} GetIsPart(d: Dict, k: string)
    ensures Get(d, k) == Null || exists i :: 0 <= i < |d| && d[i].value == Get(d, k)
  {
    if d != [] && d[0].key != k {
      GetIsPart(d[1..], k);
      if Get(d[1..], k) != Null {
        var i :| 0 <= i < |d[1..]| && d[1..][i].value == Get(d[1..], k);
        assert d[i + 1].value == Get(d, k);
      }
    } else if d != [] {
      assert d[0].value == Get(d, k);
    }
  }

  /** A dictionary of one entry. */
  function Only(k: string, v: Json): Json {
    Obj([Field(k, v)])
  }

  lemma GetOnly(k: string, v: Json)
    ensures Get(Only(k, v).fields, k) == v
    ensures forall o :: o != k ==> Get(Only(k, v).fields, o) == Null
  {
  }
}
