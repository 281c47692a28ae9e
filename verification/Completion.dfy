/**
  Two decisions of the completion checker: whether read ranges cover a required range, and what a
  list of checks amounts to.
 */
module Completion {

  // ---------- line ranges ----------

  datatype Range = Range(lo: int, hi: int)

  /** The order of pairs. */
  predicate Before(a: Range, b: Range) {
    a.lo < b.lo || (a.lo == b.lo && a.hi <= b.hi)
  }

  predicate InOrder(ranges: seq<Range>) {
    forall i, j :: 0 <= i < j < |ranges| ==> Before(ranges[i], ranges[j])
  }

  function Insert(r: Range, ranges: seq<Range>): seq<Range> {
    if ranges == [] || Before(r, ranges[0]) then [r] + ranges else [ranges[0]] + Insert(r, ranges[1..])
  }

  /** `sorted(ranges)`. */
  function Sorted(ranges: seq<Range>): seq<Range> {
    if ranges == [] then [] else Insert(ranges[0], Sorted(ranges[1..]))
  }

  lemma {:induction false} InsertAdds(r: Range, ranges: seq<Range>)
    ensures multiset(Insert(r, ranges)) == multiset(ranges) + multiset{r}
    decreases |ranges|
  {
    if ranges != [] && !Before(r, ranges[0]) {
      InsertAdds(r, ranges[1..]);
      assert ranges == [ranges[0]] + ranges[1..];
    }
  }

  /** `r` comes before all the others. */
  predicate First(r: Range, ranges: seq<Range>) {
    forall j :: 0 <= j < |ranges| ==> Before(r, ranges[j])
  }

  lemma {:induction false} InsertKeepsFirst(least: Range, r: Range, ranges: seq<Range>)
    requires First(least, ranges) && Before(least, r)
    ensures First(least, Insert(r, ranges))
    decreases |ranges|
  {
    if ranges != [] && !Before(r, ranges[0]) {
      InsertKeepsFirst(least, r, ranges[1..]);
    }
  }

  lemma {:induction false} InsertKeepsOrder(r: Range, ranges: seq<Range>)
    requires InOrder(ranges)
    ensures InOrder(Insert(r, ranges))
    decreases |ranges|
  {
    if ranges != [] && !Before(r, ranges[0]) {
      InsertKeepsOrder(r, ranges[1..]);
      InsertKeepsFirst(ranges[0], r, ranges[1..]);
    }
  }

  lemma {:induction false} SortedIsSorted(ranges: seq<Range>)
    ensures InOrder(Sorted(ranges)) && multiset(Sorted(ranges)) == multiset(ranges)
    decreases |ranges|
  {
    if ranges != [] {
      SortedIsSorted(ranges[1..]);
      InsertKeepsOrder(ranges[0], Sorted(ranges[1..]));
      InsertAdds(ranges[0], Sorted(ranges[1..]));
      assert ranges == [ranges[0]] + ranges[1..];
    }
  }

  predicate Within(line: int, ranges: seq<Range>) {
    exists i :: 0 <= i < |ranges| && ranges[i].lo <= line <= ranges[i].hi
  }

  lemma SameLines(a: seq<Range>, b: seq<Range>, line: int)
    requires multiset(a) == multiset(b) && Within(line, a)
    ensures Within(line, b)
  {
    var i :| 0 <= i < |a| && a[i].lo <= line <= a[i].hi;
    assert a[i] in multiset(a);
    assert a[i] in multiset(b);
    assert a[i] in b;
  }

  /** Every line from `start` to `end`; an empty request still asks for its start. */
  ghost predicate Covered(start: int, end: int, ranges: seq<Range>) {
    forall line :: start <= line <= end || line == start ==> Within(line, ranges)
  }

  /** `_ranges_cover`: one pass over the sorted ranges decides whether all required lines are read. */
  method RangesCover(required: Range, ranges: seq<Range>) returns (covered: bool)
    ensures covered <==> Covered(required.lo, required.hi, ranges)
  {
    var start, end := required.lo, required.hi;
    var ordered := Sorted(ranges);
    SortedIsSorted(ranges);
    var current := start;
    for i := 0 to |ordered|
      invariant start <= current && (current == start || current <= end)
      invariant forall line :: start <= line < current ==> Within(line, ordered)
      invariant forall j :: 0 <= j < i ==> ordered[j].hi < current
    {
      var range := ordered[i];
      if range.hi < current {
        continue;
      }
      if range.lo > current {
        assert !Within(current, ordered);
        UncoveredLine(required, ranges, ordered, current);
        return false;
      }
      forall line | start <= line < range.hi + 1 ensures Within(line, ordered) {
      }
      current := if current >= range.hi + 1 then current else range.hi + 1;
      if current > end {
        forall line | start <= line <= end || line == start ensures Within(line, ranges) {
          SameLines(ordered, ranges, line);
        }
        return true;
      }
    }
    assert !Within(current, ordered);
    UncoveredLine(required, ranges, ordered, current);
    return false;
  }

  lemma UncoveredLine(required: Range, ranges: seq<Range>, ordered: seq<Range>, line: int)
    requires multiset(ordered) == multiset(ranges) && !Within(line, ordered)
    requires line == required.lo || required.lo <= line <= required.hi
    ensures !Covered(required.lo, required.hi, ranges)
  {
    if Within(line, ranges) {
      SameLines(ranges, ordered, line);
    }
  }

  // ---------- checks ----------

  datatype Check = Check(id: string, passed: bool, unverifiable: bool)

  datatype Verdict = Accepted | Rejected | Unverifiable

  /** `_acceptance_status`. */
  function Acceptance(checks: seq<Check>): Verdict {
    if forall i :: 0 <= i < |checks| ==> checks[i].passed then Accepted
    else if exists i :: 0 <= i < |checks| && !checks[i].passed && checks[i].unverifiable then Unverifiable
    else Rejected
  }

  function Merge(a: Check, b: Check): Check {
    Check(a.id, a.passed && b.passed, a.unverifiable || b.unverifiable)
  }

  function Place(items: seq<Check>, id: string): (i: nat)
    ensures i <= |items|
    ensures i < |items| ==> items[i].id == id
    ensures forall j :: 0 <= j < i ==> items[j].id != id
  {
    if items == [] || items[0].id == id then 0 else 1 + Place(items[1..], id)
  }

  /** What one check does to the items collected so far. */
  function Absorb(items: seq<Check>, check: Check): seq<Check> {
    var i := Place(items, check.id);
    if i < |items| then items[i := Merge(items[i], check)] else items + [check]
  }

  function AbsorbAll(items: seq<Check>, checks: seq<Check>): seq<Check>
    decreases |checks|
  {
    if checks == [] then items else AbsorbAll(Absorb(items, checks[0]), checks[1..])
  }

  function Collapsed(checks: seq<Check>): seq<Check> {
    AbsorbAll([], checks)
  }

  predicate Distinct(items: seq<Check>) {
    forall i, j :: 0 <= i < j < |items| ==> items[i].id != items[j].id
  }

  /** `merged` and `ordering`, seen as the list of items that the function returns at the end. */
  predicate Holds(merged: map<string, Check>, ordering: seq<string>, items: seq<Check>) {
    && |ordering| == |items|
    && (forall i :: 0 <= i < |items| ==>
          ordering[i] == items[i].id && ordering[i] in merged && merged[ordering[i]] == items[i])
    && (forall id :: id in merged ==> id in ordering)
  }

  lemma HoldsAbsorb(merged: map<string, Check>, ordering: seq<string>, items: seq<Check>, check: Check)
    requires Holds(merged, ordering, items) && Distinct(items)
    ensures check.id in merged ==>
              Holds(merged[check.id := Merge(merged[check.id], check)], ordering, Absorb(items, check))
    ensures check.id !in merged ==> Holds(merged[check.id := check], ordering + [check.id], Absorb(items, check))
    ensures Distinct(Absorb(items, check))
  {
    var i := Place(items, check.id);
    if check.id in merged {
      var j :| 0 <= j < |ordering| && ordering[j] == check.id;
      assert i <= j;
    }
  }

  /** `_collapse_checks`: fills a dictionary in place and reads it back in the order of first appearance. */
  method CollapseChecks(checks: seq<Check>) returns (items: seq<Check>)
    ensures items == Collapsed(checks)
  {
    hide Absorb;
    var merged: map<string, Check> := map[];
    var ordering: seq<string> := [];
    ghost var collected: seq<Check> := [];
    for n := 0 to |checks|
      invariant Holds(merged, ordering, collected) && Distinct(collected)
      invariant AbsorbAll(collected, checks[n..]) == Collapsed(checks)
    {
      var check := checks[n];
      HoldsAbsorb(merged, ordering, collected, check);
      assert checks[n..][1..] == checks[n + 1..];
      collected := Absorb(collected, check);
      if check.id !in merged {
        merged := merged[check.id := check];
        ordering := ordering + [check.id];
      } else {
        merged := merged[check.id := Merge(merged[check.id], check)];
      }
    }
    items := seq(|ordering|, i requires 0 <= i < |ordering| => merged[ordering[i]]);
    assert items == collected;
  }

  // ---------- what collapsing keeps ----------

  predicate Names(checks: seq<Check>, id: string) {
    exists i :: 0 <= i < |checks| && checks[i].id == id
  }

  /** No check of this identity failed. */
  predicate Passes(checks: seq<Check>, id: string) {
    forall i :: 0 <= i < |checks| && checks[i].id == id ==> checks[i].passed
  }

  /** Some check of this identity could not be verified. */
  predicate Doubts(checks: seq<Check>, id: string) {
    exists i :: 0 <= i < |checks| && checks[i].id == id && checks[i].unverifiable
  }

  predicate Alike(a: seq<Check>, b: seq<Check>, id: string) {
    (Names(a, id) <==> Names(b, id)) && (Passes(a, id) <==> Passes(b, id)) && (Doubts(a, id) <==> Doubts(b, id))
  }

  /** Each identity once, failed if any of its checks failed, doubtful if any was. */
  ghost predicate Represents(items: seq<Check>, checks: seq<Check>) {
    Distinct(items) && forall id: string :: Alike(items, checks, id)
  }

  lemma OneMore(checks: seq<Check>, check: Check, id: string)
    ensures Names(checks + [check], id) <==> Names(checks, id) || check.id == id
    ensures Passes(checks + [check], id) <==> Passes(checks, id) && (check.id == id ==> check.passed)
    ensures Doubts(checks + [check], id) <==> Doubts(checks, id) || (check.id == id && check.unverifiable)
  {
    var longer := checks + [check];
    assert longer[|checks|] == check;
    assert forall i :: 0 <= i < |checks| ==> longer[i] == checks[i];
  }

  lemma OneMerged(items: seq<Check>, at: nat, check: Check, id: string)
    requires Distinct(items) && at < |items| && items[at].id == check.id
    ensures var after := items[at := Merge(items[at], check)];
            && (Names(after, id) <==> Names(items, id) || check.id == id)
            && (Passes(after, id) <==> Passes(items, id) && (check.id == id ==> check.passed))
            && (Doubts(after, id) <==> Doubts(items, id) || (check.id == id && check.unverifiable))
  {
    var after := items[at := Merge(items[at], check)];
    assert after[at] == Merge(items[at], check);
    assert forall i :: 0 <= i < |items| ==> after[i].id == items[i].id;
    assert forall i :: 0 <= i < |items| && i != at ==> after[i] == items[i];
  }

  lemma AbsorbAlike(items: seq<Check>, checks: seq<Check>, check: Check, id: string)
    requires Distinct(items) && Alike(items, checks, id)
    ensures Alike(Absorb(items, check), checks + [check], id)
  {
    hide Names, Passes, Doubts;
    OneMore(checks, check, id);
    var at := Place(items, check.id);
    if at < |items| {
      OneMerged(items, at, check, id);
    } else {
      OneMore(items, check, id);
    }
  }

  lemma AbsorbKeepsDistinct(items: seq<Check>, check: Check)
    requires Distinct(items)
    ensures Distinct(Absorb(items, check))
  {
  }

  lemma {:induction false} AbsorbAllRepresents(items: seq<Check>, done: seq<Check>, checks: seq<Check>)
    requires Represents(items, done)
    ensures Represents(AbsorbAll(items, checks), done + checks)
    decreases |checks|
  {
    hide Alike, Absorb, Distinct;
    if checks == [] {
      assert done + checks == done;
    } else {
      AbsorbKeepsDistinct(items, checks[0]);
      forall id: string ensures Alike(Absorb(items, checks[0]), done + [checks[0]], id) {
        AbsorbAlike(items, done, checks[0], id);
      }
      AbsorbAllRepresents(Absorb(items, checks[0]), done + [checks[0]], checks[1..]);
      assert done + [checks[0]] + checks[1..] == done + checks;
    }
  }

  lemma AcceptedMeans(checks: seq<Check>)
    ensures Acceptance(checks).Accepted? <==> forall id: string :: Passes(checks, id)
  {
    if forall id: string :: Passes(checks, id) {
      forall i | 0 <= i < |checks| ensures checks[i].passed {
        assert Passes(checks, checks[i].id);
      }
    }
  }

  /** An identity with a failed check and a doubtful one, be they the same or not. */
  ghost predicate HiddenDoubt(checks: seq<Check>) {
    exists id: string :: !Passes(checks, id) && Doubts(checks, id)
  }

  lemma UnverifiableMeans(checks: seq<Check>)
    ensures Acceptance(checks).Unverifiable? ==> HiddenDoubt(checks)
    ensures Distinct(checks) && HiddenDoubt(checks) ==> Acceptance(checks).Unverifiable?
  {
    if i :| 0 <= i < |checks| && !checks[i].passed && checks[i].unverifiable {
      assert !Passes(checks, checks[i].id) && Doubts(checks, checks[i].id);
    }
    if Distinct(checks) && HiddenDoubt(checks) {
      var id: string :| !Passes(checks, id) && Doubts(checks, id);
      var i :| 0 <= i < |checks| && checks[i].id == id && !checks[i].passed;
      var j :| 0 <= j < |checks| && checks[j].id == id && checks[j].unverifiable;
      assert i == j;
    }
  }

  /**
    Collapsing any checks leaves each identity once and never turns acceptance into refusal or back;
    the result is UNVERIFIABLE exactly when some identity has both a failed check and a doubtful one.
   */
  lemma CollapsingMeans(checks: seq<Check>)
    ensures Distinct(Collapsed(checks))
    ensures forall id: string :: Names(Collapsed(checks), id) <==> Names(checks, id)
    ensures Acceptance(Collapsed(checks)).Accepted? <==> Acceptance(checks).Accepted?
    ensures Acceptance(Collapsed(checks)).Unverifiable? <==> HiddenDoubt(checks)
    ensures Acceptance(checks).Unverifiable? ==> Acceptance(Collapsed(checks)).Unverifiable?
  {
    hide Acceptance, Names, Passes, Doubts;
    var items := Collapsed(checks);
    assert Represents([], []) by { assert forall id: string :: Alike([], [], id); }
    AbsorbAllRepresents([], [], checks);
    assert [] + checks == checks;
    forall id: string
      ensures Names(items, id) <==> Names(checks, id)
      ensures Passes(items, id) <==> Passes(checks, id)
      ensures Doubts(items, id) <==> Doubts(checks, id)
    {
      assert Alike(items, checks, id);
    }
    AcceptedMeans(checks);
    AcceptedMeans(items);
    UnverifiableMeans(checks);
    UnverifiableMeans(items);
  }

  // ---------- the checks the program builds ----------

  /** A check that could not be verified counts as failed. */
  predicate Plain(check: Check) {
    check.unverifiable ==> !check.passed
  }

  lemma MergeKeepsPlain(a: Check, b: Check)
    requires Plain(a) && Plain(b)
    ensures Plain(Merge(a, b))
  {
  }

  lemma {:induction false} CollapsedArePlain(items: seq<Check>, checks: seq<Check>)
    requires forall i :: 0 <= i < |items| ==> Plain(items[i])
    requires forall i :: 0 <= i < |checks| ==> Plain(checks[i])
    ensures forall i :: 0 <= i < |AbsorbAll(items, checks)| ==> Plain(AbsorbAll(items, checks)[i])
    decreases |checks|
  {
    if checks != [] {
      var at := Place(items, checks[0].id);
      if at < |items| {
        MergeKeepsPlain(items[at], checks[0]);
      }
      CollapsedArePlain(Absorb(items, checks[0]), checks[1..]);
    }
  }

  lemma PlainDoubtIsOpen(checks: seq<Check>)
    requires forall i :: 0 <= i < |checks| ==> Plain(checks[i])
    ensures HiddenDoubt(checks) <==> Acceptance(checks).Unverifiable?
  {
    UnverifiableMeans(checks);
    if HiddenDoubt(checks) {
      var id: string :| !Passes(checks, id) && Doubts(checks, id);
      var i :| 0 <= i < |checks| && checks[i].id == id && checks[i].unverifiable;
    }
  }

  /** Every check the program builds is plain, so collapsing leaves the verdict as it was and the items plain. */
  lemma CollapsingKeepsTheVerdict(checks: seq<Check>)
    requires forall i :: 0 <= i < |checks| ==> Plain(checks[i])
    ensures Acceptance(Collapsed(checks)) == Acceptance(checks)
    ensures forall i :: 0 <= i < |Collapsed(checks)| ==> Plain(Collapsed(checks)[i])
  {
    hide Acceptance, HiddenDoubt, AbsorbAll;
    CollapsingMeans(checks);
    CollapsedArePlain([], checks);
    PlainDoubtIsOpen(checks);
  }
}
