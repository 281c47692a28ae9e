/**
  `_BoundedCapture`: the head and the tail of a pipe of any length, in bounded memory.
 */
module Capture {

  newtype Byte = x: int | 0 <= x < 256

  type Bytes = seq<Byte>

  datatype BoundedStream = BoundedStream(data: Bytes, truncated: bool, omitted: nat)

  // ---------- what a capture holds, as a function of the whole stream ----------

  function Min(a: nat, b: nat): nat {
    if a <= b then a else b
  }

  function Last(s: Bytes, n: nat): (r: Bytes)
    ensures |r| == Min(n, |s|)
  {
    s[|s| - Min(n, |s|)..]
  }

  function Head(stream: Bytes, limit: nat): Bytes {
    stream[..Min(limit / 2, |stream|)]
  }

  function Tail(stream: Bytes, limit: nat): Bytes {
    Last(stream[|Head(stream, limit)|..], limit - limit / 2)
  }

  function Digits(n: nat): string {
    if n < 10 then [('0' as int + n) as char] else Digits(n / 10) + [('0' as int + n % 10) as char]
  }

  function Encode(s: string): Bytes {
    seq(|s|, i requires 0 <= i < |s| => (s[i] as int % 256) as Byte)
  }

  function Marker(omitted: nat): Bytes {
    Encode("\n...[truncated " + Digits(omitted) + " bytes]...\n")
  }

  /** The one-shot meaning of a capture, in which chunks do not appear. */
  function Captured(stream: Bytes, limit: nat): BoundedStream {
    if |stream| <= limit then BoundedStream(stream, false, 0)
    else BoundedStream(Head(stream, limit) + Marker(|stream| - limit) + Tail(stream, limit), true, |stream| - limit)
  }

  /** Head and tail are disjoint ends of the stream, and the gap between them is what is reported omitted. */
  lemma CaptureKeepsBothEnds(stream: Bytes, limit: nat)
    ensures Head(stream, limit) <= stream
    ensures |Head(stream, limit)| + |Tail(stream, limit)| == Min(limit, |stream|)
    ensures Tail(stream, limit) == stream[|stream| - |Tail(stream, limit)|..]
    ensures |stream| <= limit ==> Head(stream, limit) + Tail(stream, limit) == stream
    ensures Captured(stream, limit).truncated <==> |stream| > limit
    ensures Captured(stream, limit).omitted + |Head(stream, limit)| + |Tail(stream, limit)| == |stream|
    ensures |stream| > limit ==> |Head(stream, limit)| == limit / 2 && |Tail(stream, limit)| == limit - limit / 2
  {
    hide Marker;
    EndsOfStream(stream, limit);
    hide Head, Tail;
  }

  /**
    What is handed on reads in the order of the stream: its first bytes, the marker with the number of
    bytes that are missing, its last bytes; or the stream itself, if it fits.
   */
  lemma CaptureReadsInOrder(stream: Bytes, limit: nat)
    ensures var r, h, t := Captured(stream, limit), limit / 2, limit - limit / 2;
            if |stream| <= limit then r.data == stream && !r.truncated && r.omitted == 0
            else
              && r.truncated && r.omitted == |stream| - limit
              && |r.data| == limit + |Marker(r.omitted)|
              && r.data[..h] == stream[..h]
              && r.data[h..|r.data| - t] == Marker(r.omitted)
              && r.data[|r.data| - t..] == stream[|stream| - t..]
  {
    hide Marker;
    EndsOfStream(stream, limit);
    hide Head, Tail;
    if |stream| > limit {
      var r, head, tail := Captured(stream, limit), Head(stream, limit), Tail(stream, limit);
      var marker := Marker(|stream| - limit);
      assert r.data == head + marker + tail;
      assert (head + marker + tail)[..|head|] == head;
      assert (head + marker + tail)[|head|..|head| + |marker|] == marker;
      assert (head + marker + tail)[|head| + |marker|..] == tail;
    }
  }

  predicate Decimal(s: string) {
    forall i :: 0 <= i < |s| ==> '0' <= s[i] <= '9'
  }

  /** The number that a string of digits stands for. */
  function ValueOf(s: string): nat
    requires Decimal(s)
  {
    if s == [] then 0 else ValueOf(s[..|s| - 1]) * 10 + (s[|s| - 1] as int - '0' as int)
  }

  /** The marker's number is written in decimal, without leading zeros. */
  lemma {:induction false} DigitsMean(n: nat)
    ensures Digits(n) != [] && Decimal(Digits(n)) && ValueOf(Digits(n)) == n
    ensures n > 0 ==> Digits(n)[0] != '0'
    decreases n
  {
    if n < 10 {
      assert Digits(n)[..0] == [];
    } else {
      DigitsMean(n / 10);
      assert Digits(n)[..|Digits(n)| - 1] == Digits(n / 10);
    }
  }

  lemma EndsOfStream(stream: Bytes, limit: nat)
    ensures |Head(stream, limit)| == Min(limit / 2, |stream|)
    ensures |Tail(stream, limit)| == Min(limit - limit / 2, |stream| - |Head(stream, limit)|)
    ensures Head(stream, limit) == stream[..|Head(stream, limit)|]
    ensures Tail(stream, limit) == stream[|stream| - |Tail(stream, limit)|..]
  {
    var h := |Head(stream, limit)|;
    LastOfSuffix(stream, h, Min(limit - limit / 2, |stream| - h));
  }

  lemma LastOfSuffix(s: Bytes, k: nat, n: nat)
    requires k + n <= |s|
    ensures s[k..][|s| - k - n..] == s[|s| - n..]
  {
  }

  // ---------- chunks ----------

  function Concat(chunks: seq<Bytes>): Bytes {
    if chunks == [] then [] else chunks[0] + Concat(chunks[1..])
  }

  lemma {:induction false} ConcatSnoc(chunks: seq<Bytes>, last: Bytes)
    ensures Concat(chunks + [last]) == Concat(chunks) + last
    decreases |chunks|
  {
    if chunks == [] {
      assert chunks + [last] == [last];
      assert Concat([last]) == last + [];
    } else {
      assert (chunks + [last])[1..] == chunks[1..] + [last];
      ConcatSnoc(chunks[1..], last);
    }
  }

  /** What the tail keeps after another chunk depends on what it kept before and nothing older. */
  lemma LastOfLonger(s: Bytes, more: Bytes, n: nat)
    ensures Last(Last(s, n) + more, n) == Last(s + more, n)
  {
    var short, long := Last(s, n) + more, s + more;
    var k := Min(n, |short|);
    assert Min(n, |long|) == k;
    assert short[|short| - k..] == long[|long| - k..];
  }

  /** How many bytes of a new chunk the head still takes. */
  function Taken(stream: Bytes, bytes: Bytes, limit: nat): (n: nat)
    ensures n <= |bytes|
  {
    Min(limit / 2 - |Head(stream, limit)|, |bytes|)
  }

  lemma HeadGrows(stream: Bytes, bytes: Bytes, limit: nat)
    ensures Head(stream + bytes, limit) == Head(stream, limit) + bytes[..Taken(stream, bytes, limit)]
  {
  }

  lemma TailGrows(stream: Bytes, bytes: Bytes, limit: nat)
    ensures Tail(stream + bytes, limit)
         == Last(Tail(stream, limit) + bytes[Taken(stream, bytes, limit)..], limit - limit / 2)
  {
    var before, chunk := stream[|Head(stream, limit)|..], bytes[Taken(stream, bytes, limit)..];
    HeadGrows(stream, bytes, limit);
    assert (stream + bytes)[|Head(stream + bytes, limit)|..] == before + chunk;
    LastOfLonger(before, chunk, limit - limit / 2);
  }

  /** What one round of the trim loop may assume and must keep: the tail is an end of `whole`. */
  predicate EndOf(tail: seq<Bytes>, whole: Bytes) {
    |Concat(tail)| <= |whole| && Concat(tail) == whole[|whole| - |Concat(tail)|..]
  }

  lemma DropFirst(tail: seq<Bytes>, whole: Bytes)
    requires tail != [] && EndOf(tail, whole)
    ensures EndOf(tail[1..], whole) && |Concat(tail[1..])| == |Concat(tail)| - |tail[0]|
  {
    assert Concat(tail)[|tail[0]|..] == Concat(tail[1..]);
  }

  lemma CutFirst(tail: seq<Bytes>, whole: Bytes, n: nat)
    requires tail != [] && EndOf(tail, whole) && n < |tail[0]|
    ensures var cut := [tail[0][n..]] + tail[1..];
            EndOf(cut, whole) && |Concat(cut)| == |Concat(tail)| - n
  {
    var cut := [tail[0][n..]] + tail[1..];
    assert cut[1..] == tail[1..];
    assert Concat(tail)[n..] == tail[0][n..] + Concat(tail[1..]);
  }

  lemma TakenExactly(stream: Bytes, bytes: Bytes, limit: nat)
    ensures |Head(stream, limit)| <= limit / 2
    ensures Taken(stream, bytes, limit) == Min(limit / 2 - |Head(stream, limit)|, |bytes|)
    ensures |Head(stream, limit)| == limit / 2 ==>
              Taken(stream, bytes, limit) == 0 && bytes[..0] == [] && bytes[0..] == bytes
  {
  }

  lemma LastOfTail(stream: Bytes, limit: nat)
    ensures Last(Tail(stream, limit), limit - limit / 2) == Tail(stream, limit)
  {
  }

  lemma WholeIsEnd(tail: seq<Bytes>, whole: Bytes)
    requires Concat(tail) == whole
    ensures EndOf(tail, whole)
  {
  }

  lemma NotEmpty(tail: seq<Bytes>)
    ensures tail == [] ==> |Concat(tail)| == 0
  {
  }

  lemma EndIsLast(tail: seq<Bytes>, whole: Bytes, n: nat)
    requires EndOf(tail, whole) && |Concat(tail)| <= n && (n <= |Concat(tail)| || |Concat(tail)| == |whole|)
    ensures Concat(tail) == Last(whole, n)
  {
  }

  class BoundedCapture {
    const limit: nat
    const prefixLimit: nat
    const tailLimit: nat
    var prefix: Bytes
    var tail: seq<Bytes>
    var tailSize: nat
    var total: nat
    ghost var stream: Bytes         // everything appended so far

    ghost predicate Valid()
      reads this
    {
      && prefixLimit == limit / 2 && tailLimit == limit - limit / 2
      && prefix == Head(stream, limit)
      && Concat(tail) == Tail(stream, limit)
      && tailSize == |Concat(tail)|
      && total == |stream|
    }

    constructor (limit: nat)
      ensures Valid() && this.limit == limit && stream == []
    {
      this.limit := limit;
      prefixLimit := limit / 2;
      tailLimit := limit - limit / 2;
      prefix := [];
      tail := [];
      tailSize := 0;
      total := 0;
      stream := [];
    }

    method Append(bytes: Bytes)
      requires Valid()
      modifies this
      ensures Valid() && stream == old(stream) + bytes
    {
      hide Head, Tail, Concat, EndOf, Taken, Last;
      HeadGrows(stream, bytes, limit);
      TailGrows(stream, bytes, limit);
      ghost var taken := Taken(stream, bytes, limit);
      TakenExactly(stream, bytes, limit);
      stream := stream + bytes;
      var chunk := bytes;
      total := total + |chunk|;
      if |prefix| < prefixLimit {
        var take := Min(prefixLimit - |prefix|, |chunk|);
        prefix := prefix + chunk[..take];
        chunk := chunk[take..];
      }
      assert prefix == Head(stream, limit) && chunk == bytes[taken..];
      ghost var whole := Concat(tail) + chunk;
      if |chunk| == 0 {
        assert whole == Concat(tail);
        LastOfTail(old(stream), limit);
        return;
      }
      ConcatSnoc(tail, chunk);
      tail := tail + [chunk];
      tailSize := tailSize + |chunk|;
      WholeIsEnd(tail, whole);
      while tailSize > tailLimit
        invariant EndOf(tail, whole) && tailSize == |Concat(tail)|
        invariant tailLimit <= tailSize || tailSize == |whole|
        invariant prefix == Head(stream, limit) && total == |stream| && stream == old(stream) + bytes
        decreases tailSize, |tail|
      {
        NotEmpty(tail);
        var overflow := tailSize - tailLimit;
        var first := tail[0];
        if |first| <= overflow {
          DropFirst(tail, whole);
          tail := tail[1..];
          tailSize := tailSize - |first|;
        } else {
          CutFirst(tail, whole, overflow);
          tail := [first[overflow..]] + tail[1..];
          tailSize := tailSize - overflow;
        }
      }
      EndIsLast(tail, whole, tailLimit);
    }

    method Finish() returns (r: BoundedStream)
      requires Valid()
      ensures r == Captured(stream, limit)
    {
      CaptureKeepsBothEnds(stream, limit);
      var rest := Flatten(tail);
      var complete := prefix + rest;
      if total <= |complete| {
        return BoundedStream(complete, false, 0);
      }
      var omitted := total - |prefix| - |rest|;
      r := BoundedStream(prefix + Marker(omitted) + rest, true, omitted);
    }
  }

  method Flatten(chunks: seq<Bytes>) returns (r: Bytes)
    ensures r == Concat(chunks)
  {
    hide Concat;
    ConcatNothing();
    r := [];
    assert chunks[..0] == [] && chunks[..|chunks|] == chunks;
    for i := 0 to |chunks|
      invariant r == Concat(chunks[..i])
    {
      ConcatUpTo(chunks, i);
      r := r + chunks[i];
    }
  }

  /** Draining a pipe: however the stream is cut into chunks, the capture is that of the whole stream. */
  method Drain(chunks: seq<Bytes>, limit: nat) returns (r: BoundedStream)
    ensures r == Captured(Concat(chunks), limit)
  {
    hide Head, Tail, Last, Captured, Concat;
    ConcatNothing();
    var capture := new BoundedCapture(limit);
    assert chunks[..0] == [] && chunks[..|chunks|] == chunks;
    for i := 0 to |chunks|
      invariant capture.Valid() && fresh(capture)
      invariant capture.stream == Concat(chunks[..i]) && capture.limit == limit
    {
      ConcatUpTo(chunks, i);
      capture.Append(chunks[i]);
    }
    r := capture.Finish();
  }

  lemma ConcatNothing()
    ensures Concat([]) == []
  {
  }

  lemma ConcatUpTo(chunks: seq<Bytes>, i: nat)
    requires i < |chunks|
    ensures Concat(chunks[..i + 1]) == Concat(chunks[..i]) + chunks[i]
  {
    hide Concat;
    assert chunks[..i + 1] == chunks[..i] + [chunks[i]];
    ConcatSnoc(chunks[..i], chunks[i]);
  }
}
