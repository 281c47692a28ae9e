/**
  The parser of `git status --porcelain=v2 -z`, against a printer of that format.
 */
module GitStatus {
  import opened Capture

  const NUL: Byte := 0
  const SPACE: Byte := 32
  const ORDINARY: Byte := 49        // '1'
  const RENAME: Byte := 50          // '2'
  const UNMERGED: Byte := 117       // 'u'
  const UNTRACKED: Byte := 63       // '?'
  const IGNORED: Byte := 33         // '!'
  const HEADER: Byte := 35          // '#'

  /** One reported path: the two status letters and the path. */
  datatype Item = Item(xy: Bytes, path: Bytes)

  /** `Undecodable`: the status letters are not ASCII. */
  datatype Parsed = Parsed(items: seq<Item>) | Malformed(marker: Byte) | Undecodable(xy: Bytes)

  // ---------- splitting ----------

  function IndexOf(s: Bytes, b: Byte): (i: nat)
    ensures i <= |s|
    ensures forall j :: 0 <= j < i ==> s[j] != b
    ensures i < |s| ==> s[i] == b
  {
    if s == [] || s[0] == b then 0 else 1 + IndexOf(s[1..], b)
  }

  /** `bytes.split(b)`. */
  function Split(s: Bytes, b: Byte): (r: seq<Bytes>)
    ensures r != []
    decreases |s|
  {
    var i := IndexOf(s, b);
    if i == |s| then [s] else [s[..i]] + Split(s[i + 1..], b)
  }

  /** `bytes.split(b, n)`: at most `n` cuts. */
  function SplitMax(s: Bytes, b: Byte, n: nat): (r: seq<Bytes>)
    ensures 1 <= |r| <= n + 1
    decreases n
  {
    var i := IndexOf(s, b);
    if n == 0 || i == |s| then [s] else [s[..i]] + SplitMax(s[i + 1..], b, n - 1)
  }

  // ---------- the parser ----------

  /** How many parts the record of a tracked path has. */
  function PartsOf(marker: Byte): nat {
    if marker == ORDINARY then 9 else if marker == RENAME then 10 else 11
  }

  predicate Tracked(marker: Byte) {
    marker == ORDINARY || marker == RENAME || marker == UNMERGED
  }

  predicate Ascii(s: Bytes) {
    forall i :: 0 <= i < |s| ==> s[i] < 128
  }

  function TrackedItem(record: Bytes): (r: Parsed)
    requires record != [] && Tracked(record[0])
    ensures r.Parsed? ==> |r.items| == 1
  {
    var parts := SplitMax(record, SPACE, PartsOf(record[0]) - 1);
    if |parts| != PartsOf(record[0]) then Malformed(record[0])
    else if !Ascii(parts[1]) then Undecodable(parts[1])
    else Parsed([Item(parts[1], parts[|parts| - 1])])
  }

  function Prepend(items: seq<Item>, rest: Parsed): Parsed {
    if rest.Parsed? then Parsed(items + rest.items) else rest
  }

  /** `_parse_git_status` on the records that are left; a rename also takes the record behind it. */
  function ParseRecords(records: seq<Bytes>): Parsed
    decreases |records|
  {
    if records == [] then Parsed([])
    else if records[0] == [] then ParseRecords(records[1..])
    else
      var record, marker := records[0], records[0][0];
      if Tracked(marker) then
        var item := TrackedItem(record);
        if !item.Parsed? then item
        else if marker == RENAME && |records| > 1 then Prepend(item.items, ParseRecords(records[2..]))
        else Prepend(item.items, ParseRecords(records[1..]))
      else if marker == UNTRACKED then
        Prepend([Item([UNTRACKED, UNTRACKED], if |record| < 2 then [] else record[2..])], ParseRecords(records[1..]))
      else if marker == IGNORED || marker == HEADER then ParseRecords(records[1..])
      else Malformed(marker)
  }

  method ParseStatus(output: Bytes) returns (r: Parsed)
    ensures r == ParseRecords(Split(output, NUL))
  {
    hide Split, TrackedItem;
    var records := Split(output, NUL);
    var items: seq<Item> := [];
    var index := 0;
    while index < |records|
      invariant 0 <= index <= |records|
      invariant ParseRecords(records) == Prepend(items, ParseRecords(records[index..]))
    {
      ghost var rest := records[index..];
      var record := records[index];
      index := index + 1;
      assert rest[1..] == records[index..];
      if record == [] {
        continue;
      }
      var marker := record[0];
      if Tracked(marker) {
        var item := TrackedItem(record);
        if !item.Parsed? {
          return item;
        }
        ghost var was := items;
        items := items + item.items;
        if marker == RENAME && index < |records| {
          index := index + 1;
          assert rest[2..] == records[index..];
        }
        PrependTwice(was, item.items, ParseRecords(records[index..]));
      } else if marker == UNTRACKED {
        var item := Item([UNTRACKED, UNTRACKED], if |record| < 2 then [] else record[2..]);
        PrependTwice(items, [item], ParseRecords(records[index..]));
        items := items + [item];
      } else if marker == IGNORED || marker == HEADER {
      } else {
        return Malformed(marker);
      }
    }
    assert items + [] == items;
    r := Parsed(items);
  }

  lemma PrependTwice(a: seq<Item>, b: seq<Item>, rest: Parsed)
    ensures Prepend(a, Prepend(b, rest)) == Prepend(a + b, rest)
  {
    if rest.Parsed? {
      assert a + (b + rest.items) == (a + b) + rest.items;
    }
  }

  // ---------- the printer ----------

  /** A status line before it is printed; `fields` are the columns between the letters and the path. */
  datatype Line =
    | Changed(xy: Bytes, fields: seq<Bytes>, path: Bytes)
    | Renamed(xy: Bytes, fields: seq<Bytes>, path: Bytes, from: Bytes)
    | Conflicted(xy: Bytes, fields: seq<Bytes>, path: Bytes)
    | Unknown(path: Bytes)
    | Hidden(path: Bytes)
    | Note(text: Bytes)

  predicate Column(s: Bytes) {
    NUL !in s && SPACE !in s
  }

  predicate Columns(fields: seq<Bytes>, n: nat) {
    |fields| == n && forall i :: 0 <= i < n ==> Column(fields[i])
  }

  /** Columns without spaces, and paths of any bytes but NUL. */
  predicate Printable(l: Line) {
    match l
    case Changed(xy, fields, path) => Column(xy) && Columns(fields, 6) && NUL !in path
    case Renamed(xy, fields, path, from) => Column(xy) && Columns(fields, 7) && NUL !in path && NUL !in from
    case Conflicted(xy, fields, path) => Column(xy) && Columns(fields, 8) && NUL !in path
    case Unknown(path) => NUL !in path
    case Hidden(path) => NUL !in path
    case Note(text) => NUL !in text
  }

  /** The letters of every tracked path can be decoded, as those that Git prints can. */
  predicate Decodable(l: Line) {
    l.Changed? || l.Renamed? || l.Conflicted? ==> Ascii(l.xy)
  }

  /** Columns, each followed by a space. */
  function Spaced(columns: seq<Bytes>): Bytes {
    if columns == [] then [] else columns[0] + [SPACE] + Spaced(columns[1..])
  }

  function Record(marker: Byte, xy: Bytes, fields: seq<Bytes>, path: Bytes): Bytes {
    Spaced([[marker], xy] + fields) + path
  }

  /** The NUL-terminated pieces of one line. */
  function Pieces(l: Line): seq<Bytes> {
    match l
    case Changed(xy, fields, path) => [Record(ORDINARY, xy, fields, path)]
    case Renamed(xy, fields, path, from) => [Record(RENAME, xy, fields, path), from]
    case Conflicted(xy, fields, path) => [Record(UNMERGED, xy, fields, path)]
    case Unknown(path) => [[UNTRACKED, SPACE] + path]
    case Hidden(path) => [[IGNORED, SPACE] + path]
    case Note(text) => [[HEADER, SPACE] + text]
  }

  function Terminated(pieces: seq<Bytes>): Bytes {
    if pieces == [] then [] else pieces[0] + [NUL] + Terminated(pieces[1..])
  }

  function AllPieces(lines: seq<Line>): seq<Bytes> {
    if lines == [] then [] else Pieces(lines[0]) + AllPieces(lines[1..])
  }

  function Print(lines: seq<Line>): Bytes {
    Terminated(AllPieces(lines))
  }

  /** What a line reports. */
  function Reported(l: Line): seq<Item> {
    match l
    case Changed(xy, _, path) => [Item(xy, path)]
    case Renamed(xy, _, path, _) => [Item(xy, path)]
    case Conflicted(xy, _, path) => [Item(xy, path)]
    case Unknown(path) => [Item([UNTRACKED, UNTRACKED], path)]
    case Hidden(_) => []
    case Note(_) => []
  }

  function AllReported(lines: seq<Line>): seq<Item> {
    if lines == [] then [] else Reported(lines[0]) + AllReported(lines[1..])
  }

  // ---------- parsing what was printed ----------

  lemma {:induction false} IndexBehind(s: Bytes, b: Byte, rest: Bytes)
    requires b !in s
    ensures IndexOf(s + [b] + rest, b) == |s|
    decreases |s|
  {
    var all := s + [b] + rest;
    if s != [] {
      assert all[1..] == s[1..] + [b] + rest;
      IndexBehind(s[1..], b, rest);
    }
  }

  lemma SplitFirst(first: Bytes, rest: Bytes)
    requires NUL !in first
    ensures Split(first + [NUL] + rest, NUL) == [first] + Split(rest, NUL)
  {
    IndexBehind(first, NUL, rest);
    hide IndexOf;
    var all := first + [NUL] + rest;
    assert all[..|first|] == first;
    assert all[|first| + 1..] == rest;
  }

  lemma SplitNothing()
    ensures Split([], NUL) == [[]]
  {
  }

  lemma {:induction false} SplitTerminated(pieces: seq<Bytes>)
    requires forall i :: 0 <= i < |pieces| ==> NUL !in pieces[i]
    ensures Split(Terminated(pieces), NUL) == pieces + [[]]
    decreases |pieces|
  {
    hide Split;
    if pieces == [] {
      SplitNothing();
    } else {
      var first, rest := pieces[0], pieces[1..];
      SplitFirst(first, Terminated(rest));
      SplitTerminated(rest);
      ConsSnoc(pieces, []);
    }
  }

  lemma ConsSnoc(pieces: seq<Bytes>, last: Bytes)
    requires pieces != []
    ensures [pieces[0]] + (pieces[1..] + [last]) == pieces + [last]
  {
  }

  lemma SplitMaxFirst(first: Bytes, rest: Bytes, n: nat)
    requires SPACE !in first && n > 0
    ensures SplitMax(first + [SPACE] + rest, SPACE, n) == [first] + SplitMax(rest, SPACE, n - 1)
  {
    IndexBehind(first, SPACE, rest);
    hide IndexOf;
    var all := first + [SPACE] + rest;
    assert all[..|first|] == first;
    assert all[|first| + 1..] == rest;
  }

  lemma SpacedFirst(columns: seq<Bytes>, path: Bytes)
    requires columns != []
    ensures Spaced(columns) + path == columns[0] + [SPACE] + (Spaced(columns[1..]) + path)
  {
  }

  lemma SplitMaxNone(path: Bytes)
    ensures SplitMax(path, SPACE, 0) == [path]
  {
  }

  lemma {:induction false} SplitColumns(columns: seq<Bytes>, path: Bytes)
    requires forall i :: 0 <= i < |columns| ==> SPACE !in columns[i]
    ensures SplitMax(Spaced(columns) + path, SPACE, |columns|) == columns + [path]
    decreases |columns|
  {
    hide SplitMax;
    if columns == [] {
      assert Spaced(columns) + path == path;
      SplitMaxNone(path);
    } else {
      SpacedFirst(columns, path);
      SplitMaxFirst(columns[0], Spaced(columns[1..]) + path, |columns|);
      SplitColumns(columns[1..], path);
      ConsSnoc(columns, path);
    }
  }

  lemma {:induction false} SpacedHasNoNul(columns: seq<Bytes>)
    requires forall i :: 0 <= i < |columns| ==> NUL !in columns[i]
    ensures NUL !in Spaced(columns)
    decreases |columns|
  {
    if columns != [] {
      SpacedHasNoNul(columns[1..]);
    }
  }

  lemma RecordParses(marker: Byte, xy: Bytes, fields: seq<Bytes>, path: Bytes)
    requires Tracked(marker) && Column(xy) && Columns(fields, PartsOf(marker) - 3) && NUL !in path
    ensures var record := Record(marker, xy, fields, path);
            && record != [] && record[0] == marker && NUL !in record
            && TrackedItem(record) == if Ascii(xy) then Parsed([Item(xy, path)]) else Undecodable(xy)
  {
    hide SplitMax, Spaced, IndexOf;
    var columns := [[marker], xy] + fields;
    var record := Record(marker, xy, fields, path);
    forall i | 0 <= i < |columns| ensures Column(columns[i]) {
      if i >= 2 {
        assert columns[i] == fields[i - 2];
      }
    }
    SpacedStart(columns, path);
    SpacedHasNoNul(columns);
    SplitColumns(columns, path);
    assert |columns| == PartsOf(marker) - 1;
    assert (columns + [path])[1] == xy;
  }

  lemma SpacedStart(columns: seq<Bytes>, path: Bytes)
    requires columns != [] && columns[0] != []
    ensures var s := Spaced(columns) + path; s != [] && s[0] == columns[0][0]
  {
  }

  lemma PiecesHaveNoNul(l: Line)
    requires Printable(l)
    ensures forall i :: 0 <= i < |Pieces(l)| ==> NUL !in Pieces(l)[i]
  {
    hide Record, TrackedItem;
    match l
    case Changed(xy, fields, path) => RecordParses(ORDINARY, xy, fields, path);
    case Renamed(xy, fields, path, from) => RecordParses(RENAME, xy, fields, path);
    case Conflicted(xy, fields, path) => RecordParses(UNMERGED, xy, fields, path);
    case _ =>
  }

  /** One line is read back whole: a rename takes its original path with it, whatever that looks like. */
  lemma LineParses(l: Line, rest: seq<Bytes>)
    requires Printable(l)
    ensures ParseRecords(Pieces(l) + rest)
         == if Decodable(l) then Prepend(Reported(l), ParseRecords(rest)) else Undecodable(l.xy)
  {
    hide Record, TrackedItem, Columns;
    var records := Pieces(l) + rest;
    assert records[|Pieces(l)|..] == rest;
    if ParseRecords(rest).Parsed? {
      assert [] + ParseRecords(rest).items == ParseRecords(rest).items;
    }
    match l
    case Changed(xy, fields, path) => RecordParses(ORDINARY, xy, fields, path);
    case Renamed(xy, fields, path, from) => RecordParses(RENAME, xy, fields, path);
    case Conflicted(xy, fields, path) => RecordParses(UNMERGED, xy, fields, path);
    case Unknown(path) => assert ([UNTRACKED, SPACE] + path)[2..] == path;
    case _ =>
  }

  lemma {:induction false} LinesParse(lines: seq<Line>)
    requires forall i :: 0 <= i < |lines| ==> Printable(lines[i])
    ensures var r := ParseRecords(AllPieces(lines) + [[]]);
            if forall i :: 0 <= i < |lines| ==> Decodable(lines[i]) then r == Parsed(AllReported(lines))
                else r.Undecodable?
    ensures forall i :: 0 <= i < |AllPieces(lines)| ==> NUL !in AllPieces(lines)[i]
    decreases |lines|
  {
    hide Pieces, Reported, Printable, Decodable;
    if lines == [] {
      NothingParses();
      assert AllPieces(lines) + [[]] == [[]];
    } else {
      LinesParse(lines[1..]);
      LineParses(lines[0], AllPieces(lines[1..]) + [[]]);
      PiecesHaveNoNul(lines[0]);
      assert AllPieces(lines) + [[]] == Pieces(lines[0]) + (AllPieces(lines[1..]) + [[]]);
    }
  }

  lemma NothingParses()
    ensures ParseRecords([[]]) == Parsed([])
  {
    assert ParseRecords([[]][1..]) == Parsed([]);
  }

  /**
    Parsing inverts printing: every mix of lines comes back as exactly its paths, in order, and is
    refused exactly when some status letters are not ASCII.
   */
  lemma ParseInvertsPrint(lines: seq<Line>)
    requires forall i :: 0 <= i < |lines| ==> Printable(lines[i])
    ensures var r := ParseRecords(Split(Print(lines), NUL));
            if forall i :: 0 <= i < |lines| ==> Decodable(lines[i]) then r == Parsed(AllReported(lines))
                else r.Undecodable?
  {
    LinesParse(lines);
    SplitTerminated(AllPieces(lines));
  }
}
