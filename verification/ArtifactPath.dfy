/** The dashboard's path normalizer: `.` and `..` are resolved on a stack of segments, empty
    segments are kept. */
module ArtifactPath {
  import opened Segments

  /** One segment against the stack. */
  function Push(out: seq<string>, seg: string): seq<string> {
    if seg == ".." then
      if out != [] && out[|out| - 1] != ".." then out[..|out| - 1] else out + [seg]
    else if seg == "." then out
    else out + [seg]
  }

  function Fold(out: seq<string>, parts: seq<string>): seq<string>
    decreases |parts|
  {
    if parts == [] then out else Fold(Push(out, parts[0]), parts[1..])
  }

  function Normalize(p: string): string {
    if p == "" then p else Join(Fold([], Split(p)))
  }

  method NormalizeArtifactPath(p: string) returns (r: string)
    ensures r == Normalize(p)
  {
    if p == "" {
      return p;
    }
    var parts := Split(p);
    var out: seq<string> := [];
    var i := 0;
    while i < |parts|
      invariant 0 <= i <= |parts|
      invariant Fold(out, parts[i..]) == Fold([], parts)
    {
      var seg := parts[i];
      assert parts[i..][1..] == parts[i + 1..];
      if seg == ".." {
        if out != [] && out[|out| - 1] != ".." {
          out := out[..|out| - 1];
        } else {
          out := out + [seg];
        }
      } else if seg != "." {
        out := out + [seg];
      }
      i := i + 1;
    }
    r := Join(out);
  }

  // ---------------------------------------------------------------- normal form

  /** No `.`, and `..` only as a leading run. */
  ghost predicate NormalForm(out: seq<string>) {
    && (forall i :: 0 <= i < |out| ==> out[i] != ".")
    && (forall i, j :: 0 <= i < j < |out| && out[j] == ".." ==> out[i] == "..")
  }

  lemma {:induction false} FoldIsNormal(out: seq<string>, parts: seq<string>)
    requires NormalForm(out) && AllPlain(out) && AllPlain(parts)
    ensures NormalForm(Fold(out, parts)) && AllPlain(Fold(out, parts))
    decreases |parts|
  {
    if parts != [] {
      var next := Push(out, parts[0]);
      assert NormalForm(next) && AllPlain(next);
      FoldIsNormal(next, parts[1..]);
    }
  }

  lemma {:induction false} FoldOfNormal(out: seq<string>, parts: seq<string>)
    requires NormalForm(out + parts)
    ensures Fold(out, parts) == out + parts
    decreases |parts|
  {
    if parts != [] {
      var all := out + parts;
      assert all[|out|] == parts[0];
      if parts[0] == ".." && out != [] {
        assert all[|out| - 1] == out[|out| - 1];
      }
      assert Push(out, parts[0]) == out + [parts[0]];
      assert (out + [parts[0]]) + parts[1..] == all;
      FoldOfNormal(out + [parts[0]], parts[1..]);
    }
  }

  lemma {:induction false} FoldConcat(out: seq<string>, a: seq<string>, b: seq<string>)
    ensures Fold(out, a + b) == Fold(Fold(out, a), b)
    decreases |a|
  {
    if a == [] {
      assert a + b == b;
    } else {
      assert (a + b)[1..] == a[1..] + b;
      FoldConcat(Push(out, a[0]), a[1..], b);
    }
  }

  /** The stack a path leaves. */
  function StackOf(p: string): seq<string> {
    Fold([], Split(p))
  }

  lemma StackIsNormal(p: string)
    ensures NormalForm(StackOf(p)) && AllPlain(StackOf(p))
  {
    SplitIsPlain(p);
    FoldIsNormal([], Split(p));
  }

  /** The result, read segment by segment: it is what is on the stack, where an empty stack
      reads as one empty segment; `.` is gone and `..` only leads. */
  lemma ResultIsNormal(p: string)
    ensures Split(Normalize(p)) == (if StackOf(p) == [] then [""] else StackOf(p)) && NormalForm(Split(Normalize(p)))
  {
    StackIsNormal(p);
    if StackOf(p) != [] {
      SplitOfJoin(StackOf(p));
    }
    assert Split("") == [""];
    if p == "" {
      assert Push([], "") == [""];
      FoldOne([], "");
    }
  }

  lemma NormalizeIsIdempotent(p: string)
    ensures Normalize(Normalize(p)) == Normalize(p)
  {
    if Normalize(p) != "" {
      ResultIsNormal(p);
      FoldOfNormal([], StackOf(p));
      assert [] + StackOf(p) == StackOf(p);
    }
  }

  // ---------------------------------------------------------------- normalizing a prefix first

  /** Does it matter whether the prefix was normalized beforehand? */
  predicate PrefixLaw(p: string, q: string) {
    Normalize(Normalize(p) + ("/" + q)) == Normalize(p + ("/" + q))
  }

  /** The law holds for every continuation exactly when the prefix does not cancel out to
      nothing; a prefix whose normal form is a non-empty string never does. */
  lemma PrefixLawIff(p: string)
    ensures (forall q :: PrefixLaw(p, q)) <==> p == "" || StackOf(p) != []
    ensures Normalize(p) != "" ==> StackOf(p) != []
  {
    if p != "" && StackOf(p) != [] {
      forall q ensures PrefixLaw(p, q) { PrefixFirst(p, q); }
    }
    if p != "" && StackOf(p) == [] {
      CancelledPrefixFails(p);
      assert !PrefixLaw(p, "a");
    }
  }

  lemma PrefixFirst(p: string, q: string)
    requires p != "" && StackOf(p) != []
    ensures PrefixLaw(p, q)
  {
    var s := StackOf(p);
    StackIsNormal(p);
    SplitOfJoin(s);
    SplitAtSlash(p, q);
    SplitAtSlash(Normalize(p), q);
    FoldConcat([], Split(p), Split(q));
    FoldConcat([], s, Split(q));
    FoldOfNormal([], s);
    assert [] + s == s;
  }

  lemma CancelledPrefixFails(p: string)
    requires p != "" && StackOf(p) == []
    ensures Normalize(Normalize(p) + ("/" + "a")) == "/a" && Normalize(p + ("/" + "a")) == "a"
  {
    SplitPlain("a");
    SplitPlain("");
    SplitAtSlash(p, "a");
    FoldConcat([], Split(p), ["a"]);
    assert Push([], "a") == ["a"];
    assert Fold([], ["a"]) == ["a"];
    SplitAtSlash("", "a");
    assert Split("/a") == ["", "a"] by { assert "" + ("/" + "a") == "/a"; }
    assert Push(Push([], ""), "a") == ["", "a"];
    assert ["", "a"][1..] == ["a"];
    assert Fold([], ["", "a"]) == Fold([""], ["a"]);
    assert Fold([""], ["a"]) == ["", "a"];
    assert Join(["", "a"]) == "" + ("/" + Join(["a"]));
  }

  // ---------------------------------------------------------------- the same file?

  /** There are such prefixes: any name followed by `..`. */
  lemma NameCancelsItself(a: string)
    requires Name(a) && Plain(a)
    ensures StackOf(a + ("/" + "..")) == [] && a + ("/" + "..") != ""
  {
    SplitPlain(a);
    SplitPlain("..");
    SplitAtSlash(a, "..");
    assert Split(a + ("/" + "..")) == [a, ".."];
    assert Push([], a) == [a] && Push([a], "..") == [];
    FoldOne([a], "..");
    assert [a, ".."][1..] == [".."];
  }

  /** A place relative to some directory: so many levels up, then down these names. */
  datatype Place = Place(up: nat, names: seq<string>)

  /** POSIX lexical resolution, which the server's realpath follows where no links are
      involved: `.` and empty segments mean nothing.  Artifact paths are relative to a
      directory, so a leading slash is read as an empty segment like any other. */
  function Step(at: Place, seg: string): Place {
    if seg == "" || seg == "." then at
    else if seg == ".." then
      if at.names == [] then Place(at.up + 1, []) else at.(names := at.names[..|at.names| - 1])
    else at.(names := at.names + [seg])
  }

  function Walk(at: Place, parts: seq<string>): Place
    decreases |parts|
  {
    if parts == [] then at else Walk(Step(at, parts[0]), parts[1..])
  }

  const Here := Place(0, [])

  /** Some `..` takes an empty segment off the stack, where POSIX would take a name. */
  predicate PopsEmpty(out: seq<string>, parts: seq<string>)
    decreases |parts|
  {
    parts != [] &&
    ((parts[0] == ".." && out != [] && out[|out| - 1] == "") || PopsEmpty(Push(out, parts[0]), parts[1..]))
  }

  lemma {:induction false} WalkConcat(at: Place, a: seq<string>, b: seq<string>)
    ensures Walk(at, a + b) == Walk(Walk(at, a), b)
    decreases |a|
  {
    if a == [] {
      assert a + b == b;
    } else {
      assert (a + b)[1..] == a[1..] + b;
      WalkConcat(Step(at, a[0]), a[1..], b);
    }
  }

  lemma WalkSnoc(out: seq<string>, seg: string)
    ensures Walk(Here, out + [seg]) == Step(Walk(Here, out), seg)
  {
    WalkConcat(Here, out, [seg]);
    assert Walk(Walk(Here, out), [seg]) == Step(Walk(Here, out), seg);
  }

  lemma PushKeepsNormal(out: seq<string>, seg: string)
    requires NormalForm(out)
    ensures NormalForm(Push(out, seg))
  {
  }

  /** Taking a name off the stack is going up one level. */
  lemma PopWalks(out: seq<string>)
    requires out != [] && out[|out| - 1] != ".." && out[|out| - 1] != "."
    ensures out[|out| - 1] != "" ==> Walk(Here, out[..|out| - 1]) == Step(Walk(Here, out), "..")
    ensures out[|out| - 1] == "" ==> Walk(Here, out[..|out| - 1]) == Walk(Here, out)
  {
    var front, last := out[..|out| - 1], out[|out| - 1];
    assert out == front + [last];
    WalkSnoc(front, last);
    var at := Walk(Here, front);
    assert (at.names + [last])[..|at.names|] == at.names;
  }

  /** A normal stack walks up its leading run first and then down. */
  lemma PushWalks(out: seq<string>, seg: string)
    requires NormalForm(out)
    ensures NormalForm(Push(out, seg))
    ensures !(seg == ".." && out != [] && out[|out| - 1] == "") ==>
        Walk(Here, Push(out, seg)) == Step(Walk(Here, out), seg)
    ensures seg == ".." && out != [] && out[|out| - 1] == "" ==> Walk(Here, Push(out, seg)) == Walk(Here, out)
  {
    PushKeepsNormal(out, seg);
    if seg == ".." && out != [] && out[|out| - 1] != ".." {
      PopWalks(out);
    } else if seg != "." {
      WalkSnoc(out, seg);
    }
  }

  /** How far down a place is; negative above the start. */
  function Level(at: Place): int {
    |at.names| - at.up
  }

  /** POSIX levels only depend on the level one starts from. */
  lemma {:induction false} LevelsMoveTogether(a: Place, b: Place, parts: seq<string>)
    ensures Level(Walk(a, parts)) - Level(a) == Level(Walk(b, parts)) - Level(b)
    decreases |parts|
  {
    if parts != [] {
      LevelsMoveTogether(Step(a, parts[0]), Step(b, parts[0]), parts[1..]);
    }
  }

  lemma {:induction false} StackWalks(out: seq<string>, parts: seq<string>)
    requires NormalForm(out)
    ensures !PopsEmpty(out, parts) ==> Walk(Here, Fold(out, parts)) == Walk(Walk(Here, out), parts)
    ensures Level(Walk(Here, Fold(out, parts))) >= Level(Walk(Walk(Here, out), parts))
    ensures PopsEmpty(out, parts) ==> Level(Walk(Here, Fold(out, parts))) > Level(Walk(Walk(Here, out), parts))
    decreases |parts|
  {
    if parts != [] {
      var next := Push(out, parts[0]);
      PushWalks(out, parts[0]);
      StackWalks(next, parts[1..]);
      LevelsMoveTogether(Walk(Here, next), Step(Walk(Here, out), parts[0]), parts[1..]);
    }
  }

  /** The normalized path denotes the same place as the original exactly when no `..` ever
      follows an empty segment on the stack. */
  lemma SamePlaceIff(p: string)
    ensures Walk(Here, Split(Normalize(p))) == Walk(Here, Split(p)) <==> !PopsEmpty([], Split(p))
  {
    ResultIsNormal(p);
    assert Walk(Here, [""]) == Walk(Here, []);
    StackWalks([], Split(p));
  }

  /** A path without empty segments cannot run into that. */
  lemma {:induction false} NoEmptySegmentsSuffices(out: seq<string>, parts: seq<string>)
    requires "" !in out && "" !in parts
    ensures !PopsEmpty(out, parts)
    decreases |parts|
  {
    if parts != [] {
      NoEmptySegmentsSuffices(Push(out, parts[0]), parts[1..]);
    }
  }

  /** Where it does happen: `a//../b` becomes `a/b`, while POSIX reads it as `b`. */
  lemma DoubleSlashChangesThePlace()
    ensures Split("a//../b") == ["a", "", "..", "b"] && StackOf("a//../b") == ["a", "b"]
    ensures Walk(Here, ["a", "", "..", "b"]) == Place(0, ["b"]) && Walk(Here, ["a", "b"]) == Place(0, ["a", "b"])
  {
    SplitFour("a", "", "..", "b");
    assert "a//../b" == "a" + ("/" + ("" + ("/" + (".." + ("/" + "b")))));
    FoldOfFour("a", "", "..", "b");
    NameCancelledByName("a", "b");
    WalkOfFour("a", "", "..", "b");
  }

  lemma NameCancelledByName(a: string, b: string)
    requires Name(a) && Name(b)
    ensures Push(Push(Push(Push([], a), ""), ".."), b) == [a, b]
    ensures Step(Step(Step(Step(Here, a), ""), ".."), b) == Place(0, [b]) && Walk(Here, [a, b]) == Place(0, [a, b])
  {
    assert Push([], a) == [a];
    assert Push([a], "") == [a, ""];
    assert [a, ""][..1] == [a];
    assert [a][..0] == [];
    WalkSnoc([a], b);
    WalkSnoc([], a);
    assert [] + [a] == [a] && [a] + [b] == [a, b];
  }

  predicate Name(s: string) {
    s != "" && s != "." && s != ".."
  }

  lemma SplitFour(a: string, b: string, c: string, d: string)
    requires Plain(a) && Plain(b) && Plain(c) && Plain(d)
    ensures Split(a + ("/" + (b + ("/" + (c + ("/" + d)))))) == [a, b, c, d]
  {
    SplitPlain(a);
    SplitPlain(b);
    SplitPlain(c);
    SplitPlain(d);
    SplitAtSlash(a, b + ("/" + (c + ("/" + d))));
    SplitAtSlash(b, c + ("/" + d));
    SplitAtSlash(c, d);
  }

  lemma FoldOfFour(a: string, b: string, c: string, d: string)
    ensures Fold([], [a, b, c, d]) == Push(Push(Push(Push([], a), b), c), d)
  {
    FoldConcat([], [a], [b, c, d]);
    FoldConcat(Push([], a), [b], [c, d]);
    FoldConcat(Push(Push([], a), b), [c], [d]);
    assert [a] + [b, c, d] == [a, b, c, d] && [b] + [c, d] == [b, c, d] && [c] + [d] == [c, d];
    FoldOne([], a);
    FoldOne(Push([], a), b);
    FoldOne(Push(Push([], a), b), c);
    FoldOne(Push(Push(Push([], a), b), c), d);
  }

  lemma FoldOne(out: seq<string>, seg: string)
    ensures Fold(out, [seg]) == Push(out, seg)
  {
    assert [seg][1..] == [];
  }

  lemma WalkOfFour(a: string, b: string, c: string, d: string)
    ensures Walk(Here, [a, b, c, d]) == Step(Step(Step(Step(Here, a), b), c), d)
  {
    assert [a] + [b] == [a, b] && [a, b] + [c] == [a, b, c] && [a, b, c] + [d] == [a, b, c, d];
    WalkSnoc([a, b, c], d);
    WalkSnoc([a, b], c);
    WalkSnoc([a], b);
    WalkSnoc([], a);
    assert [] + [a] == [a];
  }
}
