/**
  The hash-chained audit log of one run: `AuditStore.append` and `AuditStore.verify_chain`.

  SHA-256 over canonical JSON is an arbitrary function from payloads to hash values.  Nothing
  below assumes that it is collision free: two different logs that both verify and agree on
  their length and head hash are shown to *contain* a collision, which is then exhibited.
 */
module Audit {

  /** What is hashed: everything an event says, its place, and the hash before it. */
  datatype Payload<+E, +H> = Payload(sequence: nat, entry: E, prev: H)

  datatype Record<+E, +H> = Record(sequence: nat, entry: E, prev: H, hash: H) {
    function ToPayload(): Payload<E, H> {
      Payload(sequence, entry, prev)
    }
  }

  function HeadHash<E, H>(log: seq<Record<E, H>>, genesis: H): H {
    if log == [] then genesis else log[|log| - 1].hash
  }

  /** The record that `append` adds: the next number, linked to the head. */
  function NextRecord<E, H>(log: seq<Record<E, H>>, entry: E, genesis: H, digest: Payload<E, H> -> H): Record<E, H> {
    var sequence := if log == [] then 1 else log[|log| - 1].sequence + 1;
    var prev := HeadHash(log, genesis);
    Record(sequence, entry, prev, digest(Payload(sequence, entry, prev)))
  }

  function Append<E, H>(log: seq<Record<E, H>>, entry: E, genesis: H, digest: Payload<E, H> -> H): seq<Record<E, H>> {
    log + [NextRecord(log, entry, genesis, digest)]
  }

  predicate LinkOk<E, H(==)>(log: seq<Record<E, H>>, i: nat, genesis: H, digest: Payload<E, H> -> H)
    requires i < |log|
  {
    && log[i].sequence == i + 1
    && log[i].prev == (if i == 0 then genesis else log[i - 1].hash)
    && log[i].hash == digest(log[i].ToPayload())
  }

  ghost predicate ChainValid<E, H>(log: seq<Record<E, H>>, genesis: H, digest: Payload<E, H> -> H) {
    forall i :: 0 <= i < |log| ==> LinkOk(log, i, genesis, digest)
  }

  /** The log that a list of entries produces when it is appended one by one. */
  function AppendAll<E, H>(log: seq<Record<E, H>>, entries: seq<E>, genesis: H,
                           digest: Payload<E, H> -> H): seq<Record<E, H>>
    decreases |entries|
  {
    if entries == [] then log
    else AppendAll(Append(log, entries[0], genesis, digest), entries[1..], genesis, digest)
  }

  function Entries<E, H>(log: seq<Record<E, H>>): seq<E> {
    seq(|log|, i requires 0 <= i < |log| => log[i].entry)
  }

  lemma AppendKeepsChain<E, H>(log: seq<Record<E, H>>, entry: E, genesis: H, digest: Payload<E, H> -> H)
    requires ChainValid(log, genesis, digest)
    ensures ChainValid(Append(log, entry, genesis, digest), genesis, digest)
  {
    var longer := Append(log, entry, genesis, digest);
    forall i | 0 <= i < |longer| ensures LinkOk(longer, i, genesis, digest) {
      if i < |log| {
        assert LinkOk(log, i, genesis, digest);
      } else if log != [] {
        assert LinkOk(log, |log| - 1, genesis, digest);
      }
    }
  }

  /** Soundness: every log that `append` can build passes, and holds exactly what was appended. */
  lemma {:induction false} AppendedLogsVerify<E, H>(log: seq<Record<E, H>>, entries: seq<E>, genesis: H,
      digest: Payload<E, H> -> H)
    requires ChainValid(log, genesis, digest)
    ensures ChainValid(AppendAll(log, entries, genesis, digest), genesis, digest)
    ensures Entries(AppendAll(log, entries, genesis, digest)) == Entries(log) + entries
    decreases |entries|
  {
    if entries != [] {
      AppendKeepsChain(log, entries[0], genesis, digest);
      AppendedLogsVerify(Append(log, entries[0], genesis, digest), entries[1..], genesis, digest);
      assert Entries(Append(log, entries[0], genesis, digest)) == Entries(log) + [entries[0]];
      assert (Entries(log) + [entries[0]]) + entries[1..] == Entries(log) + entries;
    } else {
      assert Entries(log) + entries == Entries(log);
    }
  }

  /** Completeness: a log that passes is the one its own entries produce; no other log does. */
  lemma {:induction false} VerifiedLogsWereAppended<E, H>(log: seq<Record<E, H>>, genesis: H,
      digest: Payload<E, H> -> H)
    requires ChainValid(log, genesis, digest)
    ensures log == AppendAll([], Entries(log), genesis, digest)
    decreases |log|
  {
    if log != [] {
      var n := |log| - 1;
      var shorter := log[..n];
      forall i | 0 <= i < n ensures LinkOk(shorter, i, genesis, digest) {
        assert LinkOk(log, i, genesis, digest);
      }
      VerifiedLogsWereAppended(shorter, genesis, digest);
      AppendAllSnoc([], Entries(shorter), log[n].entry, genesis, digest);
      assert Entries(log) == Entries(shorter) + [log[n].entry];
      assert LinkOk(log, n, genesis, digest);
      if n > 0 { assert LinkOk(log, n - 1, genesis, digest); }
      assert log == Append(shorter, log[n].entry, genesis, digest);
    }
  }

  lemma {:induction false} AppendAllSnoc<E, H>(log: seq<Record<E, H>>, entries: seq<E>, last: E, genesis: H,
      digest: Payload<E, H> -> H)
    ensures AppendAll(log, entries + [last], genesis, digest)
         == Append(AppendAll(log, entries, genesis, digest), last, genesis, digest)
    decreases |entries|
  {
    if entries == [] {
      assert entries + [last] == [last];
      assert AppendAll(Append(log, last, genesis, digest), [], genesis, digest) == Append(log, last, genesis, digest);
    } else {
      assert (entries + [last])[1..] == entries[1..] + [last];
      AppendAllSnoc(Append(log, entries[0], genesis, digest), entries[1..], last, genesis, digest);
    }
  }

  /**
    Binding: two logs that verify, have the same length and the same head hash, but differ
    somewhere, yield two different payloads with one hash.
   */
  lemma {:induction false} ForgeryNeedsCollision<E, H>(a: seq<Record<E, H>>, b: seq<Record<E, H>>, genesis: H,
      digest: Payload<E, H> -> H)
    returns (p: Payload<E, H>, q: Payload<E, H>)
    requires ChainValid(a, genesis, digest) && ChainValid(b, genesis, digest)
    requires |a| == |b| && HeadHash(a, genesis) == HeadHash(b, genesis)
    requires a != b
    ensures p != q && digest(p) == digest(q)
    decreases |a|
  {
    var n := |a| - 1;
    assert LinkOk(a, n, genesis, digest) && LinkOk(b, n, genesis, digest);
    p, q := a[n].ToPayload(), b[n].ToPayload();
    if p == q {
      assert a[n] == b[n];
      var a', b' := a[..n], b[..n];
      forall i | 0 <= i < n ensures LinkOk(a', i, genesis, digest) && LinkOk(b', i, genesis, digest) {
        assert LinkOk(a, i, genesis, digest) && LinkOk(b, i, genesis, digest);
      }
      assert a == a' + [a[n]] && b == b' + [b[n]];
      p, q := ForgeryNeedsCollision(a', b', genesis, digest);
    }
  }

  ghost predicate CollisionFree<E(!new), H(!new)>(digest: Payload<E, H> -> H) {
    forall p, q :: digest(p) == digest(q) ==> p == q
  }

  /** The same law read forwards: with a collision-free hash the head hash fixes every event. */
  lemma HeadHashBindsLog<E(!new), H(!new)>(a: seq<Record<E, H>>, b: seq<Record<E, H>>, genesis: H,
      digest: Payload<E, H> -> H)
    requires CollisionFree(digest)
    requires ChainValid(a, genesis, digest) && ChainValid(b, genesis, digest)
    requires |a| == |b| && HeadHash(a, genesis) == HeadHash(b, genesis)
    ensures a == b
  {
    if a != b {
      var p, q := ForgeryNeedsCollision(a, b, genesis, digest);
      assert false;
    }
  }

  datatype Fault = SequenceConflict | ChainInvalid
  datatype Report = Intact | Broken(at: nat, fault: Fault)

  /** Intact means valid; a fault names the first record that fails and how it fails. */
  ghost predicate Reports<E, H>(report: Report, log: seq<Record<E, H>>, genesis: H, digest: Payload<E, H> -> H) {
    && (report.Intact? <==> ChainValid(log, genesis, digest))
    && (report.Broken? ==>
          && report.at < |log|
          && ChainValid(log[..report.at], genesis, digest)
          && !LinkOk(log, report.at, genesis, digest)
          && (report.fault.SequenceConflict? <==> log[report.at].sequence != report.at + 1))
  }

  /** Recomputes every link from the first record on. */
  method VerifyLog<E, H(==)>(log: seq<Record<E, H>>, genesis: H, digest: Payload<E, H> -> H) returns (report: Report)
    ensures Reports(report, log, genesis, digest)
  {
    var previousHash := genesis;
    for i := 0 to |log|
      invariant previousHash == HeadHash(log[..i], genesis)
      invariant forall j :: 0 <= j < i ==> LinkOk(log, j, genesis, digest)
    {
      var record := log[i];
      assert i > 0 ==> log[..i][i - 1] == log[i - 1];
      assert forall j :: 0 <= j < i ==> LinkOk(log, j, genesis, digest) ==> LinkOk(log[..i], j, genesis, digest);
      if record.sequence != i + 1 {
        assert !LinkOk(log, i, genesis, digest);
        return Broken(i, SequenceConflict);
      }
      if record.prev != previousHash {
        assert !LinkOk(log, i, genesis, digest);
        return Broken(i, ChainInvalid);
      }
      if record.hash != digest(record.ToPayload()) {
        assert !LinkOk(log, i, genesis, digest);
        return Broken(i, ChainInvalid);
      }
      previousHash := record.hash;
      assert log[..i + 1][i] == record;
    }
    return Intact;
  }

  class AuditStore<E, H(==)> {
    var events: seq<Record<E, H>>
    const genesis: H
    const digest: Payload<E, H> -> H

    constructor (genesis: H, digest: Payload<E, H> -> H)
      ensures events == [] && this.genesis == genesis && this.digest == digest
    {
      events := [];
      this.genesis := genesis;
      this.digest := digest;
    }

    method AppendEvent(entry: E) returns (record: Record<E, H>)
      modifies this`events
      ensures events == Append(old(events), entry, genesis, digest)
      ensures record == events[|events| - 1]
    {
      var sequence := 1;
      var previous := genesis;
      if events != [] {
        var head := events[|events| - 1];
        sequence := head.sequence + 1;
        previous := head.hash;
      }
      record := Record(sequence, entry, previous, digest(Payload(sequence, entry, previous)));
      events := events + [record];
    }

    method VerifyChain() returns (report: Report)
      ensures Reports(report, events, genesis, digest)
    {
      report := VerifyLog(events, genesis, digest);
    }
  }
}
