/**
  What a task may write, twice over: `require_task_write_path` asks the task, the sandbox asks its
  path policy again before it writes, and the two use different matchers.

  Only the task's own path lists are modelled; names that the platform protects are refused anyway.
 */
module WritePolicy {
  import opened Globs

  /** The task as `require_task_write_path` sees it. */
  datatype Task = Understanding(deliverables: set<seq<string>>) | Repair

  datatype Policy = Policy(allowWrite: set<seq<string>>, denyWrite: set<seq<string>>, denyRead: set<seq<string>>)

  predicate SomeMatch(patterns: set<seq<string>>, path: seq<string>) {
    exists p :: p in patterns && GlobMatch(Join(path), Join(p))
  }

  /** `require_task_write_path`: the listed deliverables, or the expression matcher on the allow list. */
  predicate TaskMayWrite(task: Task, policy: Policy, path: seq<string>) {
    match task
    case Understanding(deliverables) => path in deliverables
    case Repair => exists p :: p in policy.allowWrite && Accepts(Translate(Join(p)), Join(path))
  }

  /** The first piece of the path that a write looks at: all of it, or its parents before it. */
  function Outermost(path: seq<string>, makesParents: bool): nat {
    if makesParents then 1 else |path|
  }

  /** The path, or a parent that the write would create or enter, matches one of the patterns. */
  predicate Touches(patterns: set<seq<string>>, path: seq<string>, makesParents: bool) {
    exists n :: Outermost(path, makesParents) <= n <= |path| && SomeMatch(patterns, path[..n])
  }

  /** What the sandbox does with one piece of a path that is to be written. */
  predicate PieceRefused(policy: Policy, piece: seq<string>, path: seq<string>) {
    SomeMatch(policy.denyRead, piece) || (SomeMatch(policy.denyWrite, piece) && !SomeMatch(policy.allowWrite, path))
  }

  /**
    The task policy in `_check_path` and `_ensure_parent_directories`: nothing excuses a path that may
    not be read; one that may not be written is excused by an allow pattern for the whole path.
   */
  predicate Refused(policy: Policy, path: seq<string>, makesParents: bool) {
    exists n :: Outermost(path, makesParents) <= n <= |path| && PieceRefused(policy, path[..n], path)
  }

  lemma RefusedMeans(policy: Policy, path: seq<string>, makesParents: bool)
    ensures Refused(policy, path, makesParents)
       <==> || Touches(policy.denyRead, path, makesParents)
            || (Touches(policy.denyWrite, path, makesParents) && !SomeMatch(policy.allowWrite, path))
  {
    hide SomeMatch;
    var first := Outermost(path, makesParents);
    if n :| first <= n <= |path| && SomeMatch(policy.denyRead, path[..n]) {
      assert PieceRefused(policy, path[..n], path);
    }
    if n :| first <= n <= |path| && SomeMatch(policy.denyWrite, path[..n]) {
      assert !SomeMatch(policy.allowWrite, path) ==> PieceRefused(policy, path[..n], path);
    }
  }

  /** In a repair task what the task may write is refused exactly when it, or such a parent, may not be read. */
  lemma RepairWritesRefusedExactly(policy: Policy, path: seq<string>, makesParents: bool)
    requires PathOk(path) && forall p :: p in policy.allowWrite ==> WellFormed(p)
    requires TaskMayWrite(Repair, policy, path)
    ensures Refused(policy, path, makesParents) <==> Touches(policy.denyRead, path, makesParents)
  {
    hide Accepts, GlobMatch, Translate, Join;
    RefusedMeans(policy, path, makesParents);
    var p :| p in policy.allowWrite && Accepts(Translate(Join(p)), Join(path));
    MatchersAgree(path, p);
  }

  // ---------- deliverables ----------

  /** `PurePosixPath.match`: the last segments, one by one. */
  predicate TailMatches(path: seq<string>, pattern: seq<string>) {
    && |pattern| <= |path|
    && forall i :: 0 <= i < |pattern| ==> FnMatch(path[|path| - |pattern| + i], pattern[i])
  }

  /** What the configuration asks of a deliverable: here a star of an allow pattern may cross slashes. */
  predicate Admits(path: seq<string>, pattern: seq<string>) {
    FnMatch(Join(path), Join(pattern)) || TailMatches(path, pattern)
  }

  predicate Admitted(policy: Policy, path: seq<string>) {
    exists p :: p in policy.allowWrite && Admits(path, p)
  }

  /** Without a segment `**`. */
  predicate Flat(pattern: seq<string>) {
    "**" !in pattern
  }

  predicate SegmentBySegment(path: seq<string>, pattern: seq<string>) {
    |pattern| == |path| && forall i :: 0 <= i < |path| ==> FnMatch(path[i], pattern[i])
  }

  lemma {:induction false} FlatMatch(path: seq<string>, pattern: seq<string>)
    requires Flat(pattern)
    ensures SegmentsMatch(path, pattern) <==> SegmentBySegment(path, pattern)
    decreases |pattern|
  {
    hide FnMatch;
    if pattern != [] && path != [] {
      FlatMatch(path[1..], pattern[1..]);
      assert forall i :: 0 <= i < |path[1..]| ==> path[1..][i] == path[i + 1];
      assert forall i :: 0 <= i < |pattern[1..]| ==> pattern[1..][i] == pattern[i + 1];
      assert SegmentBySegment(path, pattern)
        <==> FnMatch(path[0], pattern[0]) && SegmentBySegment(path[1..], pattern[1..]) by {
        Unzipped(path, pattern);
      }
    }
  }

  lemma Unzipped(path: seq<string>, pattern: seq<string>)
    requires path != [] && pattern != []
    ensures SegmentBySegment(path, pattern)
       <==> FnMatch(path[0], pattern[0]) && SegmentBySegment(path[1..], pattern[1..])
  {
    hide FnMatch;
    if FnMatch(path[0], pattern[0]) && SegmentBySegment(path[1..], pattern[1..]) {
      forall i | 0 <= i < |path| ensures FnMatch(path[i], pattern[i]) {
        if i > 0 {
          assert path[1..][i - 1] == path[i] && pattern[1..][i - 1] == pattern[i];
        }
      }
    }
  }

  // ---------- counting slashes ----------

  function Slashes(s: string): nat {
    if s == "" then 0 else (if s[0] == SLASH then 1 else 0) + Slashes(s[1..])
  }

  lemma {:induction false} SlashesOfBoth(a: string, b: string)
    ensures Slashes(a + b) == Slashes(a) + Slashes(b)
    decreases |a|
  {
    if a == "" {
      assert a + b == b;
    } else {
      assert (a + b)[1..] == a[1..] + b;
      SlashesOfBoth(a[1..], b);
    }
  }

  lemma {:induction false} NoSlashes(s: string)
    ensures SLASH !in s <==> Slashes(s) == 0
    decreases |s|
  {
    if s != "" {
      NoSlashes(s[1..]);
    }
  }

  lemma {:induction false} SlashesOfJoin(segments: seq<string>)
    requires segments != [] && forall i :: 0 <= i < |segments| ==> SLASH !in segments[i]
    ensures Slashes(Join(segments)) == |segments| - 1
    decreases |segments|
  {
    NoSlashes(segments[0]);
    if |segments| > 1 {
      SlashesOfJoin(segments[1..]);
      var rest := Join(segments[1..]);
      SlashesOfBoth(segments[0] + [SLASH], rest);
      SlashesOfBoth(segments[0], [SLASH]);
    }
  }

  /** Every slash of a pattern takes a slash of the name. */
  lemma {:induction false} EnoughSlashes(name: string, pattern: string)
    requires FnMatch(name, pattern)
    ensures Slashes(name) >= Slashes(pattern)
    decreases |pattern|
  {
    if pattern != "" {
      if pattern[0] == '*' {
        var k :| 0 <= k <= |name| && FnMatch(name[k..], pattern[1..]);
        EnoughSlashes(name[k..], pattern[1..]);
        SlashesOfBoth(name[..k], name[k..]);
        assert name[..k] + name[k..] == name;
      } else {
        EnoughSlashes(name[1..], pattern[1..]);
      }
    }
  }

  /**
    If there are no slashes to spare, stars and question marks take none, and the match falls apart at
    the first slash.
   */
  lemma {:induction false} MatchFallsApart(a: string, name: string, b: string, pattern: string)
    requires SLASH !in a && SLASH !in b
    requires FnMatch(a + [SLASH] + name, b + [SLASH] + pattern) && Slashes(name) == Slashes(pattern)
    ensures FnMatch(a, b) && FnMatch(name, pattern)
    decreases |b|
  {
    var whole, all := a + [SLASH] + name, b + [SLASH] + pattern;
    SlashesOfFirst(a, name);
    SlashesOfFirst(b, pattern);
    FirstSlash(a, name);
    if b == "" {
      assert all[0] == SLASH && all[1..] == pattern;
      assert whole[0] == SLASH;
    } else {
      assert all[0] == b[0] && all[1..] == b[1..] + [SLASH] + pattern;
      SlashesOfFirst(b[1..], pattern);
      if b[0] == '*' {
        var k :| 0 <= k <= |whole| && FnMatch(whole[k..], all[1..]);
        EnoughSlashes(whole[k..], all[1..]);
        SlashesOfBoth(whole[..k], whole[k..]);
        assert whole[..k] + whole[k..] == whole;
        NoSlashes(whole[..k]);
        assert whole[k..] == a[k..] + [SLASH] + name;
        MatchFallsApart(a[k..], name, b[1..], pattern);
      } else {
        EnoughSlashes(whole[1..], all[1..]);
        if a == "" {
          assert false;
        } else {
          assert whole[1..] == a[1..] + [SLASH] + name && whole[0] == a[0];
          MatchFallsApart(a[1..], name, b[1..], pattern);
        }
      }
    }
  }

  /** Where the first slash is. */
  lemma FirstSlash(a: string, rest: string)
    requires SLASH !in a
    ensures var whole := a + [SLASH] + rest;
            && (whole[0] == SLASH <==> a == "")
            && (a == "" ==> whole[1..] == rest)
            && forall k :: |a| < k <= |whole| ==> SLASH in whole[..k]
  {
    var whole := a + [SLASH] + rest;
    forall k | |a| < k <= |whole| ensures SLASH in whole[..k] {
      assert whole[..k][|a|] == SLASH;
    }
  }

  lemma SlashesOfFirst(a: string, rest: string)
    requires SLASH !in a
    ensures Slashes(a + [SLASH] + rest) == 1 + Slashes(rest)
  {
    NoSlashes(a);
    SlashesOfBoth(a + [SLASH], rest);
    SlashesOfBoth(a, [SLASH]);
  }

  /** A match of the whole string that has one segment for each segment is a match segment by segment. */
  lemma {:induction false} WholeMatchIsBySegment(path: seq<string>, pattern: seq<string>)
    requires path != [] && |pattern| == |path| && FnMatch(Join(path), Join(pattern))
    requires forall i :: 0 <= i < |path| ==> SLASH !in path[i] && SLASH !in pattern[i]
    ensures SegmentBySegment(path, pattern)
    decreases |path|
  {
    hide FnMatch;
    if |path| > 1 {
      SlashesOfJoin(path[1..]);
      SlashesOfJoin(pattern[1..]);
      MatchFallsApart(path[0], Join(path[1..]), pattern[0], Join(pattern[1..]));
      WholeMatchIsBySegment(path[1..], pattern[1..]);
      Unzipped(path, pattern);
    }
  }

  // ---------- which pattern excuses ----------

  /** A flat pattern excuses exactly the admitted paths of its own depth. */
  lemma FlatExcuses(path: seq<string>, pattern: seq<string>)
    requires PathOk(path) && WellFormed(pattern) && Flat(pattern)
    ensures GlobMatch(Join(path), Join(pattern)) <==> Admits(path, pattern) && |pattern| == |path|
  {
    hide FnMatch, GlobMatch, Join;
    GlobMatchOnSegments(path, pattern);
    FlatMatch(path, pattern);
    if |pattern| == |path| {
      assert |path| - |pattern| == 0;
      if FnMatch(Join(path), Join(pattern)) {
        WholeMatchIsBySegment(path, pattern);
      }
    }
  }

  /** One `**`, at the end. */
  predicate Subtree(pattern: seq<string>) {
    pattern != [] && pattern[|pattern| - 1] == "**" && Flat(pattern[..|pattern| - 1])
  }

  lemma {:induction false} SubtreeMatch(path: seq<string>, core: seq<string>)
    requires Flat(core)
    ensures SegmentsMatch(path, core + ["**"]) <==> |core| <= |path| && SegmentBySegment(path[..|core|], core)
    decreases |core|
  {
    hide FnMatch;
    var pattern := core + ["**"];
    if core == [] {
      assert pattern == ["**"];
    } else {
      assert pattern[0] == core[0] && pattern[1..] == core[1..] + ["**"];
      if path != [] {
        SubtreeMatch(path[1..], core[1..]);
        if |core| <= |path| {
          assert path[1..][..|core| - 1] == path[..|core|][1..];
          Unzipped(path[..|core|], core);
        }
      }
    }
  }

  /** A subtree pattern excuses exactly what its other segments lead to, the directory itself included. */
  lemma SubtreeExcuses(path: seq<string>, pattern: seq<string>)
    requires PathOk(path) && WellFormed(pattern) && Subtree(pattern)
    ensures var depth := |pattern| - 1;
            GlobMatch(Join(path), Join(pattern)) <==>
              depth <= |path| && SegmentBySegment(path[..depth], pattern[..depth])
  {
    hide FnMatch, GlobMatch, Join, SegmentsMatch;
    var depth := |pattern| - 1;
    GlobMatchOnSegments(path, pattern);
    assert pattern == pattern[..depth] + ["**"];
    SubtreeMatch(path, pattern[..depth]);
  }

  /** The depth of a path decides for flat patterns, its beginning for subtrees, a match by segments for all others. */
  predicate Excuses(path: seq<string>, pattern: seq<string>) {
    if Flat(pattern) then Admits(path, pattern) && |pattern| == |path|
    else if Subtree(pattern) then
      |pattern| - 1 <= |path| && SegmentBySegment(path[..|pattern| - 1], pattern[..|pattern| - 1])
    else SegmentsMatch(path, pattern)
  }

  lemma ExcusesExactly(path: seq<string>, pattern: seq<string>)
    requires PathOk(path) && WellFormed(pattern)
    ensures GlobMatch(Join(path), Join(pattern)) <==> Excuses(path, pattern)
  {
    hide FnMatch, GlobMatch, Join, SegmentsMatch, Admits;
    if Flat(pattern) {
      FlatExcuses(path, pattern);
    } else if Subtree(pattern) {
      SubtreeExcuses(path, pattern);
    } else {
      GlobMatchOnSegments(path, pattern);
    }
  }

  /**
    A deliverable that the configuration admits is refused exactly when it, or a parent that the write
    makes, may not be read; or may not be written and no allow pattern excuses the path.
   */
  lemma DeliverableWritesRefusedExactly(policy: Policy, path: seq<string>, makesParents: bool)
    requires PathOk(path) && forall p :: p in policy.allowWrite ==> WellFormed(p)
    ensures Refused(policy, path, makesParents)
       <==> || Touches(policy.denyRead, path, makesParents)
            || (Touches(policy.denyWrite, path, makesParents)
                && forall p :: p in policy.allowWrite ==> !Excuses(path, p))
  {
    hide GlobMatch, Join, Excuses, Touches, Refused;
    RefusedMeans(policy, path, makesParents);
    forall p | p in policy.allowWrite ensures GlobMatch(Join(path), Join(p)) <==> Excuses(path, p) {
      ExcusesExactly(path, p);
    }
  }

  /**
    With flat patterns only, what the configuration admitted is excused exactly by a pattern that
    admits it and is as deep as the path.
   */
  lemma AdmittedDeliverableRefusedExactly(policy: Policy, path: seq<string>, makesParents: bool)
    requires PathOk(path) && forall p :: p in policy.allowWrite ==> WellFormed(p) && Flat(p)
    requires Admitted(policy, path)
    ensures Refused(policy, path, makesParents)
       <==> || Touches(policy.denyRead, path, makesParents)
            || (Touches(policy.denyWrite, path, makesParents)
                && forall p :: p in policy.allowWrite && Admits(path, p) ==> |p| != |path|)
  {
    hide GlobMatch, Join, Touches, Refused, Admits;
    DeliverableWritesRefusedExactly(policy, path, makesParents);
    forall p | p in policy.allowWrite ensures Excuses(path, p) <==> Admits(path, p) && |p| == |path| {
    }
  }

  // ---------- the three ways to be refused ----------

  lemma {:induction false} MatchesItself(name: string)
    requires '*' !in name
    ensures FnMatch(name, name)
    decreases |name|
  {
    if name != "" {
      MatchesItself(name[1..]);
    }
  }

  lemma StarTakesAll(name: string)
    ensures FnMatch(name, "*")
  {
    assert FnMatch(name[|name|..], "*"[1..]);
  }

  /** The configuration takes the star for `a/b`, the sandbox for one segment. */
  lemma AdmittedDeliverableIsRefused()
    ensures var path, policy := ["docs", "a", "b"], Policy({["docs", "*"]}, {["docs", "**"]}, {});
            && PathOk(path) && (forall p :: p in policy.allowWrite + policy.denyWrite ==> WellFormed(p))
            && Admitted(policy, path) && TaskMayWrite(Understanding({path}), policy, path)
            && Refused(policy, path, true) && Refused(policy, path, false)
  {
    hide FnMatch, GlobMatch, TailMatches, Join, SegmentsMatch, Refused, Touches;
    var path, policy := ["docs", "a", "b"], Policy({["docs", "*"]}, {["docs", "**"]}, {});
    DocsAdmitted();
    assert Admits(path, ["docs", "*"]) && ["docs", "*"] in policy.allowWrite;
    SubtreeExcuses(path, ["docs", "**"]);
    MatchesItself("docs");
    assert SegmentBySegment(path[..1], ["docs", "**"][..1]);
    assert GlobMatch(Join(path), Join(["docs", "**"])) && ["docs", "**"] in policy.denyWrite;
    WholeIsTouched(policy.denyWrite, path);
    FlatExcuses(path, ["docs", "*"]);
    RefusedMeans(policy, path, true);
    RefusedMeans(policy, path, false);
  }

  lemma WholeIsTouched(patterns: set<seq<string>>, path: seq<string>)
    requires path != [] && SomeMatch(patterns, path)
    ensures Touches(patterns, path, true) && Touches(patterns, path, false)
  {
    hide SomeMatch;
    assert path[..|path|] == path;
  }

  lemma DocsAdmitted()
    ensures FnMatch(Join(["docs", "a", "b"]), Join(["docs", "*"]))
  {
    hide FnMatch, Join;
    JoinThree("docs", "a", "b");
    JoinTwo("docs", "*");
    StarTakesAll("a" + [SLASH] + "b");
    SameStart("docs" + [SLASH], "a" + [SLASH] + "b", "*");
  }

  lemma JoinTwo(a: string, b: string)
    ensures Join([a, b]) == a + [SLASH] + b
  {
    assert [a, b][1..] == [b];
  }

  lemma JoinThree(a: string, b: string, c: string)
    ensures Join([a, b, c]) == a + [SLASH] + (b + [SLASH] + c)
  {
    assert [a, b, c][1..] == [b, c];
    JoinTwo(b, c);
  }

  lemma {:induction false} SameStart(start: string, name: string, pattern: string)
    requires '*' !in start && FnMatch(name, pattern)
    ensures FnMatch(start + name, start + pattern)
    decreases |start|
  {
    if start == "" {
      assert start + name == name && start + pattern == pattern;
    } else {
      assert (start + name)[1..] == start[1..] + name && (start + pattern)[1..] == start[1..] + pattern;
      SameStart(start[1..], name, pattern);
    }
  }

  /** Nothing denies the deliverable itself, but the directory it would make is denied. */
  lemma ParentIsRefused()
    ensures var path, policy := ["docs", "a", "b"], Policy({["docs", "*"]}, {["docs"]}, {});
            && PathOk(path) && (forall p :: p in policy.allowWrite + policy.denyWrite ==> WellFormed(p))
            && Admitted(policy, path) && TaskMayWrite(Understanding({path}), policy, path)
            && Refused(policy, path, true) && !Refused(policy, path, false)
  {
    hide FnMatch, GlobMatch, TailMatches, Join, SegmentsMatch, Refused;
    var path, policy := ["docs", "a", "b"], Policy({["docs", "*"]}, {["docs"]}, {});
    DocsAdmitted();
    assert Admits(path, ["docs", "*"]) && ["docs", "*"] in policy.allowWrite;
    MatchesItself("docs");
    assert path[..1] == ["docs"];
    GlobMatchOnSegments(path[..1], ["docs"]);
    FlatMatch(path[..1], ["docs"]);
    assert SomeMatch(policy.denyWrite, path[..1]) by { assert ["docs"] in policy.denyWrite; }
    FlatExcuses(path, ["docs", "*"]);
    FlatExcuses(path, ["docs"]);
    assert path[..|path|] == path;
    assert !SomeMatch(policy.denyWrite, path);
    RefusedMeans(policy, path, true);
    RefusedMeans(policy, path, false);
  }

  /** In a repair task a path that may be written, but not read, is refused. */
  lemma UnreadableIsRefused()
    ensures var path, policy := ["src", "secret", "x"], Policy({["src", "**"]}, {}, {["src", "secret", "**"]});
            && PathOk(path) && (forall p :: p in policy.allowWrite + policy.denyRead ==> WellFormed(p))
            && TaskMayWrite(Repair, policy, path) && Refused(policy, path, true) && Refused(policy, path, false)
  {
    hide FnMatch, GlobMatch, Join, SegmentsMatch, Refused, Touches, Accepts, Translate;
    var path, policy := ["src", "secret", "x"], Policy({["src", "**"]}, {}, {["src", "secret", "**"]});
    MatchesItself("src");
    MatchesItself("secret");
    SubtreeExcuses(path, ["src", "secret", "**"]);
    assert SegmentBySegment(path[..2], ["src", "secret", "**"][..2]);
    assert SomeMatch(policy.denyRead, path) by { assert ["src", "secret", "**"] in policy.denyRead; }
    WholeIsTouched(policy.denyRead, path);
    RefusedMeans(policy, path, true);
    RefusedMeans(policy, path, false);
    SourceMayBeWritten();
    assert ["src", "**"] in policy.allowWrite;
  }

  lemma SourceMayBeWritten()
    ensures Accepts(Translate(Join(["src", "**"])), Join(["src", "secret", "x"]))
  {
    hide FnMatch, GlobMatch, Join, SegmentsMatch, Accepts, Translate;
    var path, pattern := ["src", "secret", "x"], ["src", "**"];
    MatchesItself("src");
    SubtreeExcuses(path, pattern);
    assert SegmentBySegment(path[..1], pattern[..1]);
    MatchersAgree(path, pattern);
    TakesMoreThanCore();
  }

  lemma TakesMoreThanCore()
    ensures TakesMore(["src", "secret", "x"], ["src", "**"])
  {
    var path, pattern := ["src", "secret", "x"], ["src", "**"];
    assert Core(pattern) == ["src"];
    assert Takes(path, ["src"], 1);
  }
}
