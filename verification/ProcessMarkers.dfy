/** Which processes belong to a session, and which are exempt: markers matched only at token
    and path boundaries. */
module ProcessMarkers {
  import opened Options
  import opened Segments

  /** A process's environ lines, argv elements and working directory, kept apart. */
  datatype Identity = Identity(environ: seq<string>, argv: seq<string>, cwd: Option<string>)

  datatype Markers = Markers(envLine: Option<string>, paths: seq<string>)

  // ---------------------------------------------------------------- the code's tests

  /** value == path or value.startswith(path + "/"). */
  predicate MatchesAt(path: string, value: string) {
    value == path || path + "/" <= value
  }

  predicate EndsWith(s: string, suffix: string) {
    |suffix| <= |s| && s[|s| - |suffix|..] == suffix
  }

  /** The part of KEY=VALUE after the first equals sign. */
  function ValueOf(line: string): Option<string> {
    if line == "" then None else if line[0] == '=' then Some(line[1..]) else ValueOf(line[1..])
  }

  predicate HasPath(p: Identity, path: string) {
    || (p.cwd.Some? && MatchesAt(path, p.cwd.value))
    || (exists i :: 0 <= i < |p.argv| && MatchesAt(path, p.argv[i]))
    || (exists i :: 0 <= i < |p.environ| && ValueOf(p.environ[i]).Some? && MatchesAt(path, ValueOf(p.environ[i]).value))
  }

  predicate HasArgvBasename(p: Identity, basename: string) {
    exists i :: 0 <= i < |p.argv| && (p.argv[i] == basename || EndsWith(p.argv[i], "/" + basename))
  }

  predicate Matches(m: Markers, p: Identity) {
    || (m.envLine.Some? && m.envLine.value in p.environ)
    || (exists i :: 0 <= i < |m.paths| && HasPath(p, m.paths[i]))
  }

  predicate Contains(s: string, part: string) {
    part <= s || (s != "" && Contains(s[1..], part))
  }

  function EnvLine(id: string): string {
    "AMMO_SESSION_ID=" + id
  }

  function Keep(paths: seq<string>, candidate: Option<string>, id: string): seq<string> {
    if candidate.Some? && candidate.value != "" && Contains(candidate.value, id) && candidate.value !in paths
    then paths + [candidate.value] else paths
  }

  /** The markers of a session: only paths that embed its id are used. */
  function MarkersOf(id: string, sessionDir: Option<string>, worktree: Option<string>, sessionsDir: string): Markers {
    if id == "" then Markers(None, [])
    else Markers(Some(EnvLine(id)),
        Keep(Keep(Keep([], sessionDir, id), worktree, id), Some(sessionsDir + ("/" + id)), id))
  }

  const EXEMPT_SCRIPT := "reserved_detached_run.sh"
  const EXEMPT_LINE := "AMMO_DETACHED_RUN=1"

  predicate IsExempt(p: Identity) {
    EXEMPT_LINE in p.environ || HasArgvBasename(p, EXEMPT_SCRIPT)
  }

  // ---------------------------------------------------------------- what they mean

  /** The reference meaning: a path holds everything whose components begin with its own. */
  predicate Holds(path: string, value: string) {
    Split(path) <= Split(value)
  }

  /** The string test is the component test. */
  lemma BoundaryIsComponents(path: string, value: string)
    ensures MatchesAt(path, value) <==> Holds(path, value)
  {
    if path + "/" <= value {
      var rest := value[|path| + 1..];
      assert value == path + ("/" + rest);
      SplitAtSlash(path, rest);
    }
    if Holds(path, value) {
      var tail := Split(value)[|Split(path)|..];
      assert Split(value) == Split(path) + tail;
      JoinOfSplit(value);
      JoinOfSplit(path);
      if tail == [] {
        assert Split(value) == Split(path);
      } else {
        JoinOfConcat(Split(path), tail);
        assert value == path + ("/" + Join(tail));
        assert value[..|path| + 1] == path + "/";
      }
    }
  }

  function LastComponent(path: string): string {
    Split(path)[|Split(path)| - 1]
  }

  /** The script test is equality with the last component. */
  lemma BasenameIsLastComponent(arg: string, basename: string)
    requires Plain(basename)
    ensures arg == basename || EndsWith(arg, "/" + basename) <==> LastComponent(arg) == basename
  {
    var parts := Split(arg);
    var n := |parts| - 1;
    SplitPlain(basename);
    JoinOfSplit(arg);
    if EndsWith(arg, "/" + basename) {
      var front := arg[..|arg| - |basename| - 1];
      assert arg == front + ("/" + basename);
      SplitAtSlash(front, basename);
    }
    if parts[n] == basename && n > 0 {
      assert parts == parts[..n] + [basename];
      JoinOfConcat(parts[..n], [basename]);
      assert arg == Join(parts[..n]) + ("/" + basename);
      assert arg[|arg| - (|basename| + 1)..] == "/" + basename;
    } else if parts[n] == basename {
      assert parts == [basename];
    }
  }

  /** The strings a path marker is compared with. */
  ghost predicate IsToken(p: Identity, t: string) {
    || p.cwd == Some(t)
    || t in p.argv
    || exists i :: 0 <= i < |p.environ| && ValueOf(p.environ[i]) == Some(t)
  }

  /** The value of a line is what follows its first equals sign. */
  lemma {:induction false} ValueOfIff(line: string, v: string)
    ensures ValueOf(line) == Some(v) <==> exists key :: '=' !in key && line == key + ("=" + v)
  {
    if line != "" && line[0] == '=' {
      assert line == "" + ("=" + line[1..]);
      forall key | '=' !in key && line == key + ("=" + v) ensures v == line[1..] {
        KeyIsBefore(key, v);
      }
    } else if line != "" {
      ValueOfIff(line[1..], v);
      if key :| '=' !in key && line[1..] == key + ("=" + v) {
        var longer := [line[0]] + key;
        assert line == longer + ("=" + v) && '=' !in longer;
      }
      forall key | '=' !in key && line == key + ("=" + v) ensures line[1..] == key[1..] + ("=" + v) {
        KeyIsBefore(key, v);
      }
    }
  }

  lemma KeyIsBefore(key: string, v: string)
    requires '=' !in key
    ensures (key + ("=" + v))[0] == '=' <==> key == ""
    ensures key == "" ==> (key + ("=" + v))[1..] == v
    ensures key != "" ==> (key + ("=" + v))[1..] == key[1..] + ("=" + v)
  {
  }

  lemma HasPathIs(p: Identity, path: string)
    ensures HasPath(p, path) <==> exists t :: IsToken(p, t) && Holds(path, t)
  {
    if HasPath(p, path) {
      if p.cwd.Some? && MatchesAt(path, p.cwd.value) {
        BoundaryIsComponents(path, p.cwd.value);
        assert IsToken(p, p.cwd.value);
      } else if i :| 0 <= i < |p.argv| && MatchesAt(path, p.argv[i]) {
        BoundaryIsComponents(path, p.argv[i]);
        assert IsToken(p, p.argv[i]);
      } else {
        var i :| 0 <= i < |p.environ| && ValueOf(p.environ[i]).Some? && MatchesAt(path, ValueOf(p.environ[i]).value);
        BoundaryIsComponents(path, ValueOf(p.environ[i]).value);
        assert IsToken(p, ValueOf(p.environ[i]).value);
      }
    }
    if t :| IsToken(p, t) && Holds(path, t) {
      BoundaryIsComponents(path, t);
    }
  }

  /** Where the server puts session `id`: its directory and worktree. */
  function SessionDir(sessionsDir: string, id: string): string {
    sessionsDir + ("/" + id)
  }

  function StandardMarkers(sessionsDir: string, id: string): Markers {
    MarkersOf(id, Some(SessionDir(sessionsDir, id)), Some(SessionDir(sessionsDir, id) + "/worktree"), sessionsDir)
  }

  lemma {:induction false} ContainsIff(s: string, part: string)
    ensures Contains(s, part) <==> exists front, tail :: s == front + (part + tail)
  {
    if part <= s {
      assert s == "" + (part + s[|part|..]);
    } else if s != "" {
      ContainsIff(s[1..], part);
      if Contains(s[1..], part) {
        var front, tail :| s[1..] == front + (part + tail);
        assert s == ([s[0]] + front) + (part + tail);
      }
    }
    if front, tail :| s == front + (part + tail) {
      ContainsInside(front, part, tail);
    }
  }

  /** Of the recorded directory, the recorded worktree and the directory under the sessions
      root exactly those are markers that are set and have the id in them. */
  lemma MarkerPathsIff(id: string, sessionDir: Option<string>, worktree: Option<string>, sessionsDir: string,
                       path: string)
    requires id != ""
    ensures var m := MarkersOf(id, sessionDir, worktree, sessionsDir);
      && m.envLine == Some("AMMO_SESSION_ID=" + id)
      && (path in m.paths <==>
            && path != "" && (exists front, tail :: path == front + (id + tail))
            && (sessionDir == Some(path) || worktree == Some(path) || path == SessionDir(sessionsDir, id)))
  {
    ContainsIff(path, id);
  }

  lemma {:induction false} ContainsInside(front: string, part: string, tail: string)
    ensures Contains(front + (part + tail), part)
  {
    if front == "" {
      assert front + (part + tail) == part + tail;
    } else {
      ContainsInside(front[1..], part, tail);
      assert (front + (part + tail))[1..] == front[1..] + (part + tail);
    }
  }

  lemma DirContainsId(sessionsDir: string, id: string, tail: string)
    ensures Contains(SessionDir(sessionsDir, id) + tail, id)
  {
    ContainsInside(sessionsDir + "/", id, tail);
    assert SessionDir(sessionsDir, id) + tail == (sessionsDir + "/") + (id + tail);
  }

  lemma StandardMarkersAre(sessionsDir: string, id: string)
    requires id != ""
    ensures StandardMarkers(sessionsDir, id)
        == Markers(Some(EnvLine(id)), [SessionDir(sessionsDir, id), SessionDir(sessionsDir, id) + "/worktree"])
  {
    var d := SessionDir(sessionsDir, id);
    DirContainsId(sessionsDir, id, "");
    assert d + "" == d;
    DirContainsId(sessionsDir, id, "/worktree");
    assert |d + "/worktree"| != |d|;
    var p1 := Keep([], Some(d), id);
    assert p1 == [d];
    var p2 := Keep(p1, Some(d + "/worktree"), id);
    assert p2 == [d, d + "/worktree"];
  }

  lemma ComponentsOfDir(sessionsDir: string, id: string)
    requires Plain(id)
    ensures Split(SessionDir(sessionsDir, id)) == Split(sessionsDir) + [id]
  {
    SplitAtSlash(sessionsDir, id);
    SplitPlain(id);
  }

  /** `value` has the session's directory among its leading components. */
  predicate Under(sessionsDir: string, id: string, value: string) {
    Split(sessionsDir) + [id] <= Split(value)
  }

  lemma MatchesTwoPaths(line: string, d: string, w: string, p: Identity)
    requires Holds(d, w)
    ensures Matches(Markers(Some(line), [d, w]), p) <==> line in p.environ || exists t :: IsToken(p, t) && Holds(d, t)
  {
    var m := Markers(Some(line), [d, w]);
    HasPathIs(p, d);
    HasPathIs(p, w);
    if HasPath(p, w) {
      var t :| IsToken(p, t) && Holds(w, t);
      assert Holds(d, t);
    }
    if HasPath(p, d) {
      assert HasPath(p, m.paths[0]);
    }
  }

  /** A session owns exactly the processes that carry its environ line in full, or some token
      with its directory among its leading components. */
  lemma MatchesIff(sessionsDir: string, id: string, p: Identity)
    requires id != "" && Plain(id)
    ensures Matches(StandardMarkers(sessionsDir, id), p)
            <==> EnvLine(id) in p.environ || exists t :: IsToken(p, t) && Under(sessionsDir, id, t)
  {
    var d := SessionDir(sessionsDir, id);
    StandardMarkersAre(sessionsDir, id);
    ComponentsOfDir(sessionsDir, id);
    assert d + "/worktree" == d + ("/" + "worktree");
    SplitAtSlash(d, "worktree");
    MatchesTwoPaths(EnvLine(id), d, d + "/worktree", p);
    assert forall t :: Holds(d, t) <==> Under(sessionsDir, id, t);
  }

  /** Everything about this process that reaches below the sessions directory lies in session
      `id`'s own directory, and its session line, if any, is that session's. */
  ghost predicate LivesIn(p: Identity, sessionsDir: string, id: string) {
    && (forall t, other :: IsToken(p, t) && Under(sessionsDir, other, t) ==> Under(sessionsDir, id, t))
    && (forall other :: EnvLine(other) in p.environ ==> other == id)
  }

  /** Sessions are isolated: a process of session b never matches session a's markers, not
      even when one id is a prefix of the other. */
  lemma SessionsAreIsolated(sessionsDir: string, a: string, b: string, p: Identity)
    requires a != "" && a != b && Plain(a)
    requires LivesIn(p, sessionsDir, b)
    ensures !Matches(StandardMarkers(sessionsDir, a), p)
  {
    MatchesIff(sessionsDir, a, p);
    forall t { UnderOneOnly(sessionsDir, a, b, t); }
  }

  lemma UnderOneOnly(sessionsDir: string, a: string, b: string, value: string)
    requires a != b
    ensures !(Under(sessionsDir, a, value) && Under(sessionsDir, b, value))
  {
    var dir := Split(sessionsDir);
    assert (dir + [a])[|dir|] == a && (dir + [b])[|dir|] == b;
  }

  /** In particular for sibling paths: nothing under b's directory is under a's. */
  lemma SiblingPathsDiffer(sessionsDir: string, a: string, b: string, value: string)
    requires a != b && Plain(a) && Plain(b)
    requires MatchesAt(SessionDir(sessionsDir, b), value)
    ensures !MatchesAt(SessionDir(sessionsDir, a), value)
  {
    BoundaryIsComponents(SessionDir(sessionsDir, a), value);
    BoundaryIsComponents(SessionDir(sessionsDir, b), value);
    ComponentsOfDir(sessionsDir, a);
    ComponentsOfDir(sessionsDir, b);
    UnderOneOnly(sessionsDir, a, b, value);
  }
}
