/**
  The two glob matchers: `_glob_match` walks path segments, `glob_matches` translates the pattern
  to a regular expression.  They are defined here as the code defines them and then compared.

  A pattern or path is taken apart at slashes.  Character classes of `fnmatch` are not modelled:
  a pattern holds no '['.
 */
module Globs {

  const SLASH: char := '/'

  const MAX_PATTERN_CHARS := 512

  datatype Matched = Matched(value: bool) | BadGlob

  // ---------- segments ----------

  /** A segment that taking a path apart and putting it together leaves as it is. */
  predicate Plain(segment: string) {
    segment != "" && segment != "." && SLASH !in segment
  }

  /** Segments put together with slashes. */
  function Join(segments: seq<string>): string {
    if segments == [] then ""
    else if |segments| == 1 then segments[0]
    else segments[0] + [SLASH] + Join(segments[1..])
  }

  function Split(s: string): (r: seq<string>)
    ensures r != []
  {
    if s == "" then [""]
    else
      var rest := Split(s[1..]);
      if s[0] == SLASH then [""] + rest else [[s[0]] + rest[0]] + rest[1..]
  }

  function Named(segments: seq<string>): seq<string> {
    if segments == [] then []
    else (if segments[0] == "" || segments[0] == "." then [] else [segments[0]]) + Named(segments[1..])
  }

  /** `PurePosixPath(s).parts`: the root, if any, and then every segment that is not empty or ".". */
  function Parts(s: string): seq<string> {
    var root :=
      if s == "" || s[0] != SLASH then []
      else if |s| > 1 && s[1] == SLASH && !(|s| > 2 && s[2] == SLASH) then ["//"]
      else ["/"];
    root + Named(Split(s))
  }

  // ---------- the segment matcher ----------

  /** `fnmatch.fnmatchcase` on one segment. */
  predicate FnMatch(name: string, pattern: string) {
    if pattern == "" then name == ""
    else if pattern[0] == '*' then exists k :: 0 <= k <= |name| && FnMatch(name[k..], pattern[1..])
    else name != "" && (pattern[0] == '?' || pattern[0] == name[0]) && FnMatch(name[1..], pattern[1..])
  }

  /** The inner `match` of `_glob_match`, on what is left of path and pattern. */
  predicate SegmentsMatch(path: seq<string>, pattern: seq<string>)
    decreases |pattern|
  {
    if pattern == [] then path == []
    else if pattern[0] == "**" then
      |pattern| == 1 || exists offset :: 0 <= offset <= |path| && SegmentsMatch(path[offset..], pattern[1..])
    else path != [] && FnMatch(path[0], pattern[0]) && SegmentsMatch(path[1..], pattern[1..])
  }

  /** `_glob_match`; the workspace itself is matched only by a pattern that names it. */
  predicate GlobMatch(relative: string, pattern: string) {
    if relative == "" || relative == "." then pattern == "" || pattern == "."
    else SegmentsMatch(Parts(relative), Parts(pattern))
  }

  // ---------- the regular expression matcher ----------

  // A piece of the expression: .* (?:.*/)? [^/]* [^/] or an escaped character.
  datatype Token = Anything | Directories | Name | One | Literal(c: char)

  /** The expression for `pattern[i..]`, piece by piece. */
  function Translate(pattern: string): seq<Token> {
    if pattern == "" then []
    else if pattern[0] == '*' && |pattern| > 1 && pattern[1] == '*' then
      if |pattern| > 2 && pattern[2] == SLASH then [Directories] + Translate(pattern[3..])
      else [Anything] + Translate(pattern[2..])
    else [Single(pattern[0])] + Translate(pattern[1..])
  }

  /** A character that is not the start of `**`. */
  function Single(c: char): Token {
    if c == '*' then Name else if c == '?' then One else Literal(c)
  }

  /** One round of the loop in `glob_matches`: the tokens it appends and the characters it takes. */
  lemma TranslateAt(pattern: string, index: nat)
    requires index < |pattern|
    ensures Translate(pattern[index..]) ==
            if pattern[index] == '*' && index + 1 < |pattern| && pattern[index + 1] == '*' then
              if index + 2 < |pattern| && pattern[index + 2] == SLASH
                  then [Directories] + Translate(pattern[index + 3..])
              else [Anything] + Translate(pattern[index + 2..])
            else [Single(pattern[index])] + Translate(pattern[index + 1..])
  {
    var rest := pattern[index..];
    assert rest[1..] == pattern[index + 1..];
    if |rest| > 1 { assert rest[2..] == pattern[index + 2..]; }
    if |rest| > 2 { assert rest[3..] == pattern[index + 3..]; }
  }

  /** What `re.fullmatch` accepts; the dot stops at a newline, a character class does not. */
  predicate Accepts(tokens: seq<Token>, s: string)
    decreases |tokens|
  {
    if tokens == [] then s == ""
    else
      match tokens[0]
      case Literal(c) => s != "" && s[0] == c && Accepts(tokens[1..], s[1..])
      case One => s != "" && s[0] != SLASH && Accepts(tokens[1..], s[1..])
      case Name => exists k :: 0 <= k <= |s| && SLASH !in s[..k] && Accepts(tokens[1..], s[k..])
      case Anything => exists k :: 0 <= k <= |s| && '\n' !in s[..k] && Accepts(tokens[1..], s[k..])
      case Directories =>
        || Accepts(tokens[1..], s)
        || exists k :: 0 < k <= |s| && '\n' !in s[..k - 1] && s[k - 1] == SLASH && Accepts(tokens[1..], s[k..])
  }

  /** `validate_workspace_glob`. */
  predicate ValidGlob(pattern: string) {
    && 0 < |pattern| <= MAX_PATTERN_CHARS
    && (forall i :: 0 <= i < |pattern| ==> ' ' <= pattern[i] && pattern[i] as int != 127)
    && '\\' !in pattern && ':' !in pattern && pattern[0] != SLASH && ".." !in Parts(pattern)
  }

  /** The loop of `glob_matches` builds exactly the translation. */
  method Expression(pattern: string) returns (expression: seq<Token>)
    ensures expression == Translate(pattern)
  {
    hide Translate;
    expression := [];
    var index := 0;
    assert pattern[0..] == pattern;
    while index < |pattern|
      invariant 0 <= index <= |pattern|
      invariant expression + Translate(pattern[index..]) == Translate(pattern)
    {
      var character := pattern[index];
      TranslateAt(pattern, index);
      if character == '*' {
        if index + 1 < |pattern| && pattern[index + 1] == '*' {
          if index + 2 < |pattern| && pattern[index + 2] == SLASH {
            expression := expression + [Directories];
            index := index + 3;
          } else {
            expression := expression + [Anything];
            index := index + 2;
          }
          continue;
        }
        expression := expression + [Name];
      } else if character == '?' {
        expression := expression + [One];
      } else {
        expression := expression + [Literal(character)];
      }
      index := index + 1;
    }
    TranslateNothing();
    assert pattern[index..] == "";
    assert expression + [] == expression;
  }

  /** `glob_matches`. */
  method GlobMatches(pattern: string, path: string) returns (matched: Matched)
    ensures matched == if ValidGlob(pattern) then Matched(Accepts(Translate(pattern), path)) else BadGlob
  {
    hide ValidGlob, Translate, Accepts;
    if !ValidGlob(pattern) {
      return BadGlob;
    }
    var expression := Expression(pattern);
    matched := Matched(Accepts(expression, path));
  }

  lemma TranslateNothing()
    ensures Translate("") == []
  {
  }

  // ---------- well-formed patterns and paths ----------

  predicate NoStars(segment: string) {
    forall i :: 0 <= i < |segment| - 1 ==> !(segment[i] == '*' && segment[i + 1] == '*')
  }

  /** Non-empty segments in which `**` stands alone, and no character class. */
  predicate WellFormed(pattern: seq<string>) {
    && pattern != []
    && forall i :: 0 <= i < |pattern| ==>
         Plain(pattern[i]) && '[' !in pattern[i] && (pattern[i] == "**" || NoStars(pattern[i]))
  }

  /** Non-empty segments without a newline. */
  predicate PathOk(path: seq<string>) {
    && path != []
    && forall i :: 0 <= i < |path| ==> Plain(path[i]) && '\n' !in path[i]
  }

  // ---------- tokens of a well-formed pattern ----------

  function SegmentTokens(segment: string): seq<Token> {
    if segment == "" then [] else [Single(segment[0])] + SegmentTokens(segment[1..])
  }

  function PatternTokens(pattern: seq<string>): seq<Token> {
    if pattern == [] then []
    else if pattern[0] == "**" then
      if |pattern| == 1 then [Anything] else [Directories] + PatternTokens(pattern[1..])
    else if |pattern| == 1 then SegmentTokens(pattern[0])
    else SegmentTokens(pattern[0]) + [Literal(SLASH)] + PatternTokens(pattern[1..])
  }

  lemma {:induction false} TranslateSegment(segment: string, rest: string)
    requires NoStars(segment) && SLASH !in segment && (rest == "" || rest[0] == SLASH)
    ensures Translate(segment + rest) == SegmentTokens(segment) + Translate(rest)
    decreases |segment|
  {
    hide Translate;
    if segment == "" {
      assert segment + rest == rest;
      assert SegmentTokens(segment) + Translate(rest) == Translate(rest);
    } else {
      var s := segment + rest;
      assert s[0..] == s && s[1..] == segment[1..] + rest && s[0] == segment[0];
      assert |s| > 1 && s[0] == '*' ==> s[1] != '*' by {
        assert if |segment| > 1 then s[1] == segment[1] else rest != "" ==> s[1] == rest[0];
      }
      TranslateAt(s, 0);
      TranslateSegment(segment[1..], rest);
      assert [Single(segment[0])] + (SegmentTokens(segment[1..]) + Translate(rest))
          == SegmentTokens(segment) + Translate(rest);
    }
  }

  lemma TranslateStars(rest: string)
    ensures Translate("**") == [Anything]
    ensures Translate("**" + [SLASH] + rest) == [Directories] + Translate(rest)
  {
    hide Translate;
    var s := "**" + [SLASH] + rest;
    TranslateAt("**", 0);
    TranslateNothing();
    assert "**"[0..] == "**" && "**"[2..] == "";
    TranslateAt(s, 0);
    assert s[0..] == s && s[3..] == rest;
  }

  lemma TranslateSlash(rest: string)
    ensures Translate([SLASH] + rest) == [Literal(SLASH)] + Translate(rest)
  {
    hide Translate;
    var s := [SLASH] + rest;
    TranslateAt(s, 0);
    assert s[0..] == s && s[1..] == rest;
  }

  lemma {:induction false} TranslatePattern(pattern: seq<string>)
    requires WellFormed(pattern)
    ensures Translate(Join(pattern)) == PatternTokens(pattern)
    decreases |pattern|
  {
    hide Translate, NoStars;
    var first := pattern[0];
    assert Plain(first) && (first == "**" || NoStars(first));
    if |pattern| == 1 {
      if first == "**" {
        TranslateStars("");
      } else {
        assert first + "" == first;
        TranslateSegment(first, "");
        TranslateNothing();
        assert SegmentTokens(first) + [] == SegmentTokens(first);
      }
    } else {
      PatternSuffix(pattern);
      var rest := Join(pattern[1..]);
      TranslatePattern(pattern[1..]);
      if first == "**" {
        TranslateStars(rest);
      } else {
        assert Join(pattern) == first + ([SLASH] + rest);
        TranslateSegment(first, [SLASH] + rest);
        TranslateSlash(rest);
        assert SegmentTokens(first) + ([Literal(SLASH)] + PatternTokens(pattern[1..])) == PatternTokens(pattern);
      }
    }
  }

  // ---------- a segment against its tokens ----------

  predicate SlashFirst(tokens: seq<Token>) {
    tokens == [] || tokens[0] == Literal(SLASH)
  }

  lemma {:induction false} SegmentAccepts(segment: string, tokens: seq<Token>, name: string, rest: string)
    requires SLASH !in segment && SLASH !in name && (rest == "" || rest[0] == SLASH) && SlashFirst(tokens)
    ensures Accepts(SegmentTokens(segment) + tokens, name + rest) <==> FnMatch(name, segment) && Accepts(tokens, rest)
    decreases |segment|
  {
    var all := SegmentTokens(segment) + tokens;
    var s := name + rest;
    if segment == "" {
      assert all == tokens;
      if name == "" {
        assert s == rest;
      } else {
        assert s[0] == name[0];
      }
    } else {
      var tail := SegmentTokens(segment[1..]) + tokens;
      assert all[1..] == tail;
      if segment[0] == '*' {
        forall k | 0 <= k <= |name|
          ensures Accepts(tail, s[k..]) <==> FnMatch(name[k..], segment[1..]) && Accepts(tokens, rest)
        {
          assert s[k..] == name[k..] + rest;
          SegmentAccepts(segment[1..], tokens, name[k..], rest);
        }
        StarAccepts(all, tail, segment, tokens, name, rest);
      } else if name == "" {
        assert s == rest;
      } else {
        assert s[1..] == name[1..] + rest && s[0] == name[0];
        SegmentAccepts(segment[1..], tokens, name[1..], rest);
      }
    }
  }

  lemma StarAccepts(all: seq<Token>, tail: seq<Token>, segment: string, tokens: seq<Token>, name: string, rest: string)
    requires segment != "" && segment[0] == '*' && SLASH !in name && (rest == "" || rest[0] == SLASH)
    requires all != [] && all[0] == Name && all[1..] == tail
    requires forall k :: 0 <= k <= |name| ==>
               (Accepts(tail, (name + rest)[k..]) <==> FnMatch(name[k..], segment[1..]) && Accepts(tokens, rest))
    ensures Accepts(all, name + rest) <==> FnMatch(name, segment) && Accepts(tokens, rest)
  {
    var s := name + rest;
    if Accepts(all, s) {
      var k :| 0 <= k <= |s| && SLASH !in s[..k] && Accepts(tail, s[k..]);
      assert forall j :: 0 <= j < k ==> s[j] == s[..k][j];
      assert rest != "" ==> s[|name|] == SLASH;
    }
    if FnMatch(name, segment) && Accepts(tokens, rest) {
      var k :| 0 <= k <= |name| && FnMatch(name[k..], segment[1..]);
      assert s[..k] == name[..k];
    }
  }

  // ---------- the expression, on segments ----------

  /** What the expression accepts: like the segment matcher, but a last `**` needs a segment. */
  predicate StrictMatch(path: seq<string>, pattern: seq<string>)
    requires path != [] && pattern != []
    decreases |pattern|
  {
    if pattern[0] == "**" then
      |pattern| == 1 || exists k :: 0 <= k < |path| && StrictMatch(path[k..], pattern[1..])
    else if |pattern| == 1 then |path| == 1 && FnMatch(path[0], pattern[0])
    else |path| > 1 && FnMatch(path[0], pattern[0]) && StrictMatch(path[1..], pattern[1..])
  }

  lemma {:induction false} JoinHasNoNewline(path: seq<string>)
    requires PathOk(path)
    ensures '\n' !in Join(path)
    decreases |path|
  {
    if |path| > 1 {
      JoinHasNoNewline(path[1..]);
    }
  }

  /** Behind every slash of a path begins one of its segments, and every segment but the first has one. */
  lemma {:induction false} SlashStartsSegment(path: seq<string>, k: nat)
    requires PathOk(path) && 0 < k <= |Join(path)| && Join(path)[k - 1] == SLASH
    ensures exists n :: 0 < n < |path| && Join(path)[k..] == Join(path[n..])
    decreases |path|
  {
    var first, s := path[0], Join(path);
    assert Plain(first) && forall i :: 0 <= i < |first| ==> first[i] != SLASH;
    if |path| > 1 {
      var rest := Join(path[1..]);
      assert s == first + [SLASH] + rest;
      assert k > |first|;
      if k == |first| + 1 {
        assert s[k..] == rest;
      } else {
        var j := k - |first| - 1;
        assert rest[j - 1] == s[k - 1];
        SlashStartsSegment(path[1..], j);
        var n :| 0 < n < |path[1..]| && rest[j..] == Join(path[1..][n..]);
        assert path[1..][n..] == path[n + 1..];
        assert s[k..] == rest[j..];
      }
    }
  }

  lemma {:induction false} SegmentHasSlash(path: seq<string>, n: nat)
    requires PathOk(path) && 0 < n < |path|
    ensures exists k :: 0 < k <= |Join(path)| && Join(path)[k - 1] == SLASH && Join(path)[k..] == Join(path[n..])
    decreases |path|
  {
    var first, s, rest := path[0], Join(path), Join(path[1..]);
    assert s == first + [SLASH] + rest;
    if n == 1 {
      var k := |first| + 1;
      assert s[k - 1] == SLASH && s[k..] == rest;
    } else {
      SegmentHasSlash(path[1..], n - 1);
      var j :| 0 < j <= |rest| && rest[j - 1] == SLASH && rest[j..] == Join(path[1..][n - 1..]);
      var k := |first| + 1 + j;
      assert path[1..][n - 1..] == path[n..];
      assert s[k - 1] == rest[j - 1] && s[k..] == rest[j..];
    }
  }

  lemma PathSuffix(path: seq<string>, n: nat)
    requires PathOk(path) && n < |path|
    ensures PathOk(path[n..])
  {
  }

  lemma PatternSuffix(pattern: seq<string>)
    requires WellFormed(pattern) && |pattern| > 1
    ensures WellFormed(pattern[1..])
  {
  }

  lemma {:induction false} ExpressionMatches(path: seq<string>, pattern: seq<string>)
    requires PathOk(path) && WellFormed(pattern)
    ensures Accepts(PatternTokens(pattern), Join(path)) <==> StrictMatch(path, pattern)
    decreases |pattern|
  {
    var s, first := Join(path), pattern[0];
    if first == "**" {
      if |pattern| == 1 {
        AnythingMatches(path, pattern);
      } else {
        PatternSuffix(pattern);
        forall n | 0 <= n < |path|
          ensures Accepts(PatternTokens(pattern[1..]), Join(path[n..])) <==> StrictMatch(path[n..], pattern[1..])
        {
          PathSuffix(path, n);
          ExpressionMatches(path[n..], pattern[1..]);
        }
        DirectoriesMatch(path, pattern);
      }
    } else if |pattern| == 1 {
      LastSegmentMatches(path, first);
    } else {
      PatternSuffix(pattern);
      if |path| > 1 {
        PathSuffix(path, 1);
        ExpressionMatches(path[1..], pattern[1..]);
      }
      FirstSegmentMatches(path, pattern);
    }
  }

  lemma AnythingMatches(path: seq<string>, pattern: seq<string>)
    requires PathOk(path) && pattern == ["**"]
    ensures Accepts(PatternTokens(pattern), Join(path)) <==> StrictMatch(path, pattern)
  {
    var s := Join(path);
    JoinHasNoNewline(path);
    assert PatternTokens(pattern) == [Anything];
    assert s[..|s|] == s && s[|s|..] == "";
    assert Accepts([Anything][1..], s[|s|..]);
    assert Accepts([Anything], s);
  }

  lemma DirectoriesMatch(path: seq<string>, pattern: seq<string>)
    requires PathOk(path) && |pattern| > 1 && pattern[0] == "**"
    requires forall n :: 0 <= n < |path| ==>
               (Accepts(PatternTokens(pattern[1..]), Join(path[n..])) <==> StrictMatch(path[n..], pattern[1..]))
    ensures Accepts(PatternTokens(pattern), Join(path)) <==> StrictMatch(path, pattern)
  {
    hide Accepts, StrictMatch, Join;
    var s, tokens, tail := Join(path), PatternTokens(pattern), PatternTokens(pattern[1..]);
    assert tokens[0] == Directories && tokens[1..] == tail;
    assert path[0..] == path;
    JoinHasNoNewline(path);
    DirectoriesAccept(tokens, s);
    StrictBehindStars(path, pattern);
    if k :| 0 < k <= |s| && s[k - 1] == SLASH && Accepts(tail, s[k..]) {
      SlashStartsSegment(path, k);
      var n :| 0 < n < |path| && s[k..] == Join(path[n..]);
      assert StrictMatch(path[n..], pattern[1..]);
    }
    if n :| 0 < n < |path| && StrictMatch(path[n..], pattern[1..]) {
      SegmentHasSlash(path, n);
      var k :| 0 < k <= |s| && s[k - 1] == SLASH && s[k..] == Join(path[n..]);
      assert Accepts(tail, s[k..]);
    }
  }

  lemma DirectoriesAccept(tokens: seq<Token>, s: string)
    requires tokens != [] && tokens[0] == Directories && '\n' !in s
    ensures Accepts(tokens, s) <==>
              Accepts(tokens[1..], s) || exists k :: 0 < k <= |s| && s[k - 1] == SLASH && Accepts(tokens[1..], s[k..])
  {
  }

  lemma StrictBehindStars(path: seq<string>, pattern: seq<string>)
    requires path != [] && |pattern| > 1 && pattern[0] == "**"
    ensures StrictMatch(path, pattern) <==>
              StrictMatch(path, pattern[1..]) || exists n :: 0 < n < |path| && StrictMatch(path[n..], pattern[1..])
  {
    assert path[0..] == path;
  }

  lemma LastSegmentMatches(path: seq<string>, segment: string)
    requires PathOk(path) && Plain(segment) && segment != "**"
    ensures Accepts(PatternTokens([segment]), Join(path)) <==> StrictMatch(path, [segment])
  {
    var rest := if |path| == 1 then "" else [SLASH] + Join(path[1..]);
    assert Join(path) == path[0] + rest;
    assert SegmentTokens(segment) + [] == SegmentTokens(segment);
    SegmentAccepts(segment, [], path[0], rest);
  }

  lemma FirstSegmentMatches(path: seq<string>, pattern: seq<string>)
    requires PathOk(path) && |pattern| > 1 && Plain(pattern[0]) && pattern[0] != "**"
    requires |path| > 1 ==> (Accepts(PatternTokens(pattern[1..]), Join(path[1..]))
             <==> StrictMatch(path[1..], pattern[1..]))
    ensures Accepts(PatternTokens(pattern), Join(path)) <==> StrictMatch(path, pattern)
  {
    var tail := [Literal(SLASH)] + PatternTokens(pattern[1..]);
    var rest := if |path| == 1 then "" else [SLASH] + Join(path[1..]);
    assert Join(path) == path[0] + rest;
    assert PatternTokens(pattern) == SegmentTokens(pattern[0]) + tail;
    SegmentAccepts(pattern[0], tail, path[0], rest);
    assert tail[1..] == PatternTokens(pattern[1..]);
    if |path| > 1 {
      assert rest[1..] == Join(path[1..]);
    }
  }

  // ---------- how the two matchers differ ----------

  /** The pattern without the `**` segments it ends with. */
  function Core(pattern: seq<string>): (core: seq<string>)
    ensures core <= pattern
    ensures core == [] || core[|core| - 1] != "**"
    ensures forall i :: |core| <= i < |pattern| ==> pattern[i] == "**"
  {
    if pattern == [] then []
    else if pattern[|pattern| - 1] == "**" then Core(pattern[..|pattern| - 1])
    else pattern
  }

  predicate OpenEnded(pattern: seq<string>) {
    Core(pattern) != pattern
  }

  /** A run of `**` takes whatever is left. */
  lemma {:induction false} StarsMatch(path: seq<string>, stars: seq<string>)
    requires stars != [] && forall i :: 0 <= i < |stars| ==> stars[i] == "**"
    ensures SegmentsMatch(path, stars)
    ensures path != [] ==> StrictMatch(path, stars)
    decreases |stars|
  {
    if |stars| > 1 {
      StarsMatch(path[0..], stars[1..]);
      assert path[0..] == path;
    }
  }

  predicate Takes(path: seq<string>, core: seq<string>, n: int)
    requires 0 <= n <= |path|
  {
    SegmentsMatch(path[..n], core)
  }

  /** A prefix that `**` + core takes is one that core takes further in. */
  lemma PrefixBehindStars(path: seq<string>, core: seq<string>, n: nat)
    requires n <= |path| && |core| > 1 && core[0] == "**"
    ensures Takes(path, core, n) <==> exists k :: 0 <= k <= n && Takes(path[k..], core[1..], n - k)
  {
    forall k | 0 <= k <= n ensures path[..n][k..] == path[k..][..n - k] {
    }
    if Takes(path, core, n) {
      var k :| 0 <= k <= |path[..n]| && SegmentsMatch(path[..n][k..], core[1..]);
      assert Takes(path[k..], core[1..], n - k);
    }
    if k :| 0 <= k <= n && Takes(path[k..], core[1..], n - k) {
      assert SegmentsMatch(path[..n][k..], core[1..]);
    }
  }

  lemma PrefixBehindSegment(path: seq<string>, core: seq<string>, n: nat)
    requires 0 < n <= |path| && core != [] && core[0] != "**"
    ensures Takes(path, core, n) <==> FnMatch(path[0], core[0]) && Takes(path[1..], core[1..], n - 1)
  {
    assert path[..n][1..] == path[1..][..n - 1];
  }

  /** With a run of `**` at the end: the loose matcher lets it take nothing, the strict one does not. */
  lemma {:induction false} OpenEndedMatch(path: seq<string>, core: seq<string>, stars: seq<string>)
    requires core != [] && core[|core| - 1] != "**"
    requires stars != [] && forall i :: 0 <= i < |stars| ==> stars[i] == "**"
    ensures SegmentsMatch(path, core + stars) <==> exists n :: 0 <= n <= |path| && Takes(path, core, n)
    ensures path != [] ==> (StrictMatch(path, core + stars) <==> exists n :: 0 <= n < |path| && Takes(path, core, n))
    decreases |core|
  {
    var pattern := core + stars;
    if core[0] == "**" {
      assert pattern[1..] == core[1..] + stars;
      forall k | 0 <= k <= |path|
        ensures SegmentsMatch(path[k..], pattern[1..])
                <==> exists n :: 0 <= n <= |path[k..]| && Takes(path[k..], core[1..], n)
        ensures k < |path| ==>
                  (StrictMatch(path[k..], pattern[1..])
                   <==> exists n :: 0 <= n < |path[k..]| && Takes(path[k..], core[1..], n))
      {
        OpenEndedMatch(path[k..], core[1..], stars);
      }
      OpenBehindStars(path, core, pattern);
    } else {
      OpenBehindSegment(path, core, stars);
    }
  }

  /** What a prefix of the path behind `k` segments gives the whole path, and back. */
  lemma TakesFurther(path: seq<string>, core: seq<string>, k: nat, n: nat)
    requires |core| > 1 && core[0] == "**" && k + n <= |path| && Takes(path[k..], core[1..], n)
    ensures Takes(path, core, k + n)
  {
    hide Takes;
    PrefixBehindStars(path, core, k + n);
    assert Takes(path[k..], core[1..], (k + n) - k);
  }

  lemma OpenBehindStars(path: seq<string>, core: seq<string>, pattern: seq<string>)
    requires |core| > 1 && core[0] == "**" && |pattern| > 1 && pattern[0] == "**"
    requires forall k :: 0 <= k <= |path| ==>
               (SegmentsMatch(path[k..], pattern[1..])
                <==> exists n :: 0 <= n <= |path[k..]| && Takes(path[k..], core[1..], n))
    requires forall k :: 0 <= k < |path| ==>
               (StrictMatch(path[k..], pattern[1..])
                <==> exists n :: 0 <= n < |path[k..]| && Takes(path[k..], core[1..], n))
    ensures SegmentsMatch(path, pattern) <==> exists n :: 0 <= n <= |path| && Takes(path, core, n)
    ensures path != [] ==> (StrictMatch(path, pattern) <==> exists n :: 0 <= n < |path| && Takes(path, core, n))
  {
    LooseBehindStars(path, core, pattern);
    if path != [] {
      StrictlyBehindStars(path, core, pattern);
    }
  }

  lemma LooseBehindStars(path: seq<string>, core: seq<string>, pattern: seq<string>)
    requires |core| > 1 && core[0] == "**" && |pattern| > 1 && pattern[0] == "**"
    requires forall k :: 0 <= k <= |path| ==>
               (SegmentsMatch(path[k..], pattern[1..])
                <==> exists n :: 0 <= n <= |path[k..]| && Takes(path[k..], core[1..], n))
    ensures SegmentsMatch(path, pattern) <==> exists n :: 0 <= n <= |path| && Takes(path, core, n)
  {
    hide Takes;
    if SegmentsMatch(path, pattern) {
      var k :| 0 <= k <= |path| && SegmentsMatch(path[k..], pattern[1..]);
      var n :| 0 <= n <= |path[k..]| && Takes(path[k..], core[1..], n);
      TakesFurther(path, core, k, n);
    }
    if n :| 0 <= n <= |path| && Takes(path, core, n) {
      PrefixBehindStars(path, core, n);
      var k :| 0 <= k <= n && Takes(path[k..], core[1..], n - k);
      assert SegmentsMatch(path[k..], pattern[1..]);
    }
  }

  lemma StrictlyBehindStars(path: seq<string>, core: seq<string>, pattern: seq<string>)
    requires path != [] && |core| > 1 && core[0] == "**" && |pattern| > 1 && pattern[0] == "**"
    requires forall k :: 0 <= k < |path| ==>
               (StrictMatch(path[k..], pattern[1..])
                <==> exists n :: 0 <= n < |path[k..]| && Takes(path[k..], core[1..], n))
    ensures StrictMatch(path, pattern) <==> exists n :: 0 <= n < |path| && Takes(path, core, n)
  {
    hide Takes;
    if StrictMatch(path, pattern) {
      var k :| 0 <= k < |path| && StrictMatch(path[k..], pattern[1..]);
      var n :| 0 <= n < |path[k..]| && Takes(path[k..], core[1..], n);
      TakesFurther(path, core, k, n);
    }
    if n :| 0 <= n < |path| && Takes(path, core, n) {
      PrefixBehindStars(path, core, n);
      var k :| 0 <= k <= n && Takes(path[k..], core[1..], n - k);
      assert n - k < |path[k..]|;
      assert StrictMatch(path[k..], pattern[1..]);
    }
  }

  lemma OpenBehindSegment(path: seq<string>, core: seq<string>, stars: seq<string>)
    requires core != [] && core[|core| - 1] != "**" && core[0] != "**"
    requires stars != [] && forall i :: 0 <= i < |stars| ==> stars[i] == "**"
    ensures SegmentsMatch(path, core + stars) <==> exists n :: 0 <= n <= |path| && Takes(path, core, n)
    ensures path != [] ==> (StrictMatch(path, core + stars) <==> exists n :: 0 <= n < |path| && Takes(path, core, n))
    decreases |core|, 0
  {
    var pattern := core + stars;
    assert pattern[1..] == core[1..] + stars;
    assert !Takes(path, core, 0);
    forall n | 0 < n <= |path| {
      PrefixBehindSegment(path, core, n);
    }
    if path != [] {
      var rest := path[1..];
      if |core| == 1 {
        assert core[1..] + stars == stars && core[1..] == [];
        StarsMatch(rest, stars);
        assert rest[..0] == [];
        assert Takes(rest, [], 0);
        assert Takes(path, core, 1) <==> FnMatch(path[0], core[0]);
      } else {
        OpenEndedMatch(rest, core[1..], stars);
        if SegmentsMatch(path, pattern) {
          var n :| 0 <= n <= |rest| && Takes(rest, core[1..], n);
          assert Takes(path, core, n + 1);
        }
        if n :| 0 <= n <= |path| && Takes(path, core, n) {
          assert Takes(rest, core[1..], n - 1);
        }
        if StrictMatch(path, pattern) {
          var n :| 0 <= n < |rest| && Takes(rest, core[1..], n);
          assert Takes(path, core, n + 1);
        }
        if n :| 0 <= n < |path| && Takes(path, core, n) {
          assert Takes(rest, core[1..], n - 1);
          assert |rest| > 0;
        }
      }
    }
  }

  /** Without a `**` at the end the two matchers are the same. */
  lemma {:induction false} ClosedMatch(path: seq<string>, pattern: seq<string>)
    requires path != [] && pattern != [] && pattern[|pattern| - 1] != "**"
    ensures SegmentsMatch(path, pattern) <==> StrictMatch(path, pattern)
    decreases |pattern|
  {
    if pattern[0] == "**" {
      forall k | 0 <= k < |path| ensures SegmentsMatch(path[k..], pattern[1..])
          <==> StrictMatch(path[k..], pattern[1..]) {
        ClosedMatch(path[k..], pattern[1..]);
      }
      NothingLeft(pattern[1..]);
      assert path[|path|..] == [];
    } else if |path| > 1 && |pattern| > 1 {
      ClosedMatch(path[1..], pattern[1..]);
    } else if |path| == 1 && |pattern| > 1 {
      NothingLeft(pattern[1..]);
      assert path[1..] == [];
    } else {
      assert pattern[1..] == [];
    }
  }

  lemma {:induction false} NothingLeft(pattern: seq<string>)
    requires pattern != [] && pattern[|pattern| - 1] != "**"
    ensures !SegmentsMatch([], pattern)
    decreases |pattern|
  {
    if pattern[0] == "**" {
      NothingLeft(pattern[1..]);
    }
  }

  // ---------- taking apart what was put together ----------

  lemma {:induction false} SplitSegment(segment: string, rest: string)
    requires SLASH !in segment && (rest == "" || rest[0] == SLASH)
    ensures Split(segment + rest) == if rest == "" then [segment] else [segment] + Split(rest[1..])
    decreases |segment|
  {
    var s := segment + rest;
    if segment == "" {
      assert s == rest;
    } else {
      assert s[1..] == segment[1..] + rest && s[0] == segment[0];
      SplitSegment(segment[1..], rest);
      assert [segment[0]] + segment[1..] == segment;
    }
  }

  lemma {:induction false} SplitJoin(segments: seq<string>)
    requires segments != [] && forall i :: 0 <= i < |segments| ==> Plain(segments[i])
    ensures Split(Join(segments)) == segments
    decreases |segments|
  {
    hide Split;
    var first := segments[0];
    assert Plain(first);
    if |segments| == 1 {
      assert first + "" == first;
      SplitSegment(first, "");
    } else {
      var rest := [SLASH] + Join(segments[1..]);
      SplitJoin(segments[1..]);
      assert rest[1..] == Join(segments[1..]);
      SplitSegment(first, rest);
      assert Join(segments) == first + rest;
    }
  }

  lemma {:induction false} NamedKeepsAll(segments: seq<string>)
    requires forall i :: 0 <= i < |segments| ==> Plain(segments[i])
    ensures Named(segments) == segments
    decreases |segments|
  {
    if segments != [] {
      assert Plain(segments[0]);
      NamedKeepsAll(segments[1..]);
    }
  }

  lemma PartsOfJoin(segments: seq<string>)
    requires segments != [] && forall i :: 0 <= i < |segments| ==> Plain(segments[i])
    ensures Join(segments) != "" && Parts(Join(segments)) == segments
  {
    hide Split, Named;
    SplitJoin(segments);
    NamedKeepsAll(segments);
    assert Plain(segments[0]);
    assert Join(segments)[0] == segments[0][0];
  }

  lemma GlobMatchOnSegments(path: seq<string>, pattern: seq<string>)
    requires PathOk(path) && WellFormed(pattern)
    ensures GlobMatch(Join(path), Join(pattern)) <==> SegmentsMatch(path, pattern)
  {
    hide SegmentsMatch, Parts;
    PartsOfJoin(path);
    PartsOfJoin(pattern);
    NotDot(path);
  }

  /**
    Which patterns with whole segments are valid: those that are not too long, have no control
    character, backslash or colon, and none of whose segments climbs out of the workspace.
   */
  lemma ValidGlobExactly(pattern: seq<string>)
    requires WellFormed(pattern)
    ensures ValidGlob(Join(pattern)) <==>
              && |Join(pattern)| <= 512 && ".." !in pattern
              && forall c :: c in Join(pattern) ==> c as int >= 32 && c as int != 127 && c != '\\' && c != ':'
  {
    hide Parts;
    PartsOfJoin(pattern);
    StartsWithSegment(pattern);
    var s := Join(pattern);
    assert forall i :: 0 <= i < |s| ==> s[i] in s;
  }

  lemma StartsWithSegment(pattern: seq<string>)
    requires WellFormed(pattern)
    ensures Join(pattern) != "" && Join(pattern)[0] != SLASH
  {
  }

  /** The workspace itself is matched by no pattern with whole segments, stars or not. */
  lemma NothingMatchesTheRoot(pattern: seq<string>)
    requires WellFormed(pattern)
    ensures !GlobMatch("", Join(pattern)) && !GlobMatch(".", Join(pattern))
  {
    hide SegmentsMatch, Parts;
    StartsWithSegment(pattern);
    NotDot(pattern);
  }

  lemma NotDot(path: seq<string>)
    requires path != [] && forall i :: 0 <= i < |path| ==> Plain(path[i])
    ensures Join(path) != "."
  {
    if |path| > 1 {
      assert |Join(path)| >= 2;
    }
  }

  // ---------- agreement ----------

  /** Some match of the pattern gives its last run of `**` at least one segment. */
  predicate TakesMore(path: seq<string>, pattern: seq<string>) {
    !OpenEnded(pattern) || Core(pattern) == [] || exists n :: 0 <= n < |path| && Takes(path, Core(pattern), n)
  }

  /**
    Whatever the expression accepts the segment matcher accepts.  The other way round it holds
    exactly when the last run of `**`, if there is one behind something, need not be empty.
   */
  lemma MatchersAgree(path: seq<string>, pattern: seq<string>)
    requires PathOk(path) && WellFormed(pattern)
    ensures Accepts(Translate(Join(pattern)), Join(path))
            <==> GlobMatch(Join(path), Join(pattern)) && TakesMore(path, pattern)
  {
    GlobMatchOnSegments(path, pattern);
    TranslatePattern(pattern);
    ExpressionMatches(path, pattern);
    var core := Core(pattern);
    if !OpenEnded(pattern) {
      ClosedMatch(path, pattern);
    } else {
      var stars := pattern[|core|..];
      assert pattern == core + stars;
      if core == [] {
        StarsMatch(path, pattern);
      } else {
        OpenEndedMatch(path, core, stars);
      }
    }
  }

  /** Where the matchers differ, the path as a whole matches the pattern without its last run of `**`. */
  lemma DifferenceIsTheBareDirectory(path: seq<string>, pattern: seq<string>)
    requires PathOk(path) && WellFormed(pattern)
    requires GlobMatch(Join(path), Join(pattern)) && !Accepts(Translate(Join(pattern)), Join(path))
    ensures OpenEnded(pattern) && Core(pattern) != [] && SegmentsMatch(path, Core(pattern))
  {
    MatchersAgree(path, pattern);
    GlobMatchOnSegments(path, pattern);
    var core := Core(pattern);
    var stars := pattern[|core|..];
    assert pattern == core + stars;
    OpenEndedMatch(path, core, stars);
    assert path[..|path|] == path;
  }

  /** The smallest difference: `docs/` followed by `**` matches `docs` itself for one matcher only. */
  lemma BareDirectoryDiffers()
    ensures var path, pattern := ["docs"], ["docs", "**"];
            && PathOk(path) && WellFormed(pattern)
            && GlobMatch(Join(path), Join(pattern))
            && !Accepts(Translate(Join(pattern)), Join(path))
  {
    hide Accepts, Translate, GlobMatch, Join, SegmentsMatch, TakesMore;
    var path, pattern := ["docs"], ["docs", "**"];
    GlobMatchOnSegments(path, pattern);
    MatchersAgree(path, pattern);
    DocsInItsTree();
    NothingBelowDocs();
  }

  lemma DocsInItsTree()
    ensures SegmentsMatch(["docs"], ["docs", "**"])
  {
    var path, pattern := ["docs"], ["docs", "**"];
    assert FnMatch("docs", "docs");
    assert pattern[1..] == ["**"];
    assert SegmentsMatch(path[1..], ["**"]);
  }

  lemma NothingBelowDocs()
    ensures !TakesMore(["docs"], ["docs", "**"])
  {
    var path, pattern := ["docs"], ["docs", "**"];
    assert Core(pattern) == ["docs"];
    assert path[..0] == [];
    assert !Takes(path, ["docs"], 0);
  }
}
