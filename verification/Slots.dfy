/** Proposing demo slots: the earliest candidate starts that fit; instants are integers. */
module Slots {

  datatype TimeWindow = TimeWindow(start: int, end: int)

  /** The two half-open intervals overlap. */
  predicate Overlaps(a: TimeWindow, b: TimeWindow) { a.start < b.end && b.start < a.end }

  predicate Within(t: int, w: TimeWindow) { w.start <= t < w.end }

  /** Windows of positive length overlap exactly when some instant lies in both. */
  lemma OverlapIsSharedInstant(a: TimeWindow, b: TimeWindow)
    requires a.start < a.end && b.start < b.end
    ensures Overlaps(a, b) <==> exists t :: Within(t, a) && Within(t, b)
  {
    if Overlaps(a, b) {
      var t := if a.start <= b.start then b.start else a.start;
      assert Within(t, a) && Within(t, b);
    }
  }

  datatype SchedulingPolicy = SchedulingPolicy(
    version: string, duration: int, bufferBefore: int, bufferAfter: int, minimumLead: int, maximumOptions: int)

  predicate PolicyAccepted(p: SchedulingPolicy) {
    p.duration > 0 && p.bufferBefore >= 0 && p.bufferAfter >= 0 && p.minimumLead >= 0 && p.maximumOptions > 0
  }

  /** A start that keeps the lead time, fits one availability window, and is clear of every busy one. */
  predicate Feasible(start: int, availability: seq<TimeWindow>, busy: seq<TimeWindow>, p: SchedulingPolicy, now: int) {
    && start >= now + p.minimumLead
    && (exists i :: 0 <= i < |availability| && availability[i].start <= start && start + p.duration <= availability[i].end)
    && (forall i :: 0 <= i < |busy| ==>
          !Overlaps(TimeWindow(start - p.bufferBefore, start + p.duration + p.bufferAfter), busy[i]))
  }

  /**
   In instants: the start keeps the lead time, every instant of the demo lies in one availability
   window, and no instant of it with its buffers is busy.
   */
  lemma FeasibleIff(start: int, availability: seq<TimeWindow>, busy: seq<TimeWindow>, p: SchedulingPolicy, now: int)
    requires PolicyAccepted(p) && forall i :: 0 <= i < |busy| ==> busy[i].start < busy[i].end
    ensures Feasible(start, availability, busy, p, now) <==>
      && start - now >= p.minimumLead
      && (exists i :: 0 <= i < |availability| && Covers(availability[i], start, start + p.duration))
      && (forall i, t :: 0 <= i < |busy| && Within(t, busy[i]) ==> !(start - p.bufferBefore <= t < start + p.duration + p.bufferAfter))
  {
    var slot := TimeWindow(start - p.bufferBefore, start + p.duration + p.bufferAfter);
    forall i | 0 <= i < |availability|
      ensures Covers(availability[i], start, start + p.duration) <==>
        availability[i].start <= start && start + p.duration <= availability[i].end
    {
      if Covers(availability[i], start, start + p.duration) {
        assert Within(start, availability[i]) && Within(start + p.duration - 1, availability[i]);
      }
    }
    forall i | 0 <= i < |busy|
      ensures Overlaps(slot, busy[i]) <==> exists t :: Within(t, slot) && Within(t, busy[i])
    {
      OverlapIsSharedInstant(slot, busy[i]);
    }
  }

  /** Every instant from the start to before the end lies in the window. */
  predicate Covers(w: TimeWindow, start: int, end: int) { forall t :: start <= t < end ==> Within(t, w) }

  predicate Ascending(s: seq<int>) { forall i, j :: 0 <= i < j < |s| ==> s[i] < s[j] }

  /** `sorted(set(candidates))`. */
  function Inserted(s: seq<int>, x: int): (r: seq<int>)
    requires Ascending(s)
    ensures Ascending(r) && forall y :: y in r <==> y in s || y == x
  {
    if s == [] || x < s[0] then [x] + s
    else if x == s[0] then s
    else
      var rest := Inserted(s[1..], x);
      assert forall y :: y in rest ==> s[0] < y;
      assert s == [s[0]] + s[1..];
      [s[0]] + rest
  }

  function SortedDistinct(s: seq<int>): (r: seq<int>)
    ensures Ascending(r) && forall y :: y in r <==> y in s
  {
    if s == [] then [] else Inserted(SortedDistinct(s[..|s| - 1]), s[|s| - 1])
  }

  datatype SlotOption = SlotOption(start: int, end: int, version: string)

  function Starts(options: seq<SlotOption>): seq<int> {
    seq(|options|, i requires 0 <= i < |options| => options[i].start)
  }

  /**
   The starts are the earliest feasible ones: each is a feasible candidate, they ascend, there
   are at most `limit`, and a feasible candidate is left out only when the limit is reached by
   earlier ones.
   */
  ghost predicate EarliestFeasible(starts: seq<int>, candidates: seq<int>, feasible: int -> bool, limit: int) {
    && Ascending(starts)
    && |starts| <= limit
    && (forall s :: s in starts ==> s in candidates && feasible(s))
    && (forall s :: s in candidates && feasible(s) && s !in starts ==>
          |starts| == limit && forall i :: 0 <= i < |starts| ==> starts[i] < s)
  }

  /** There is only one such list. */
  lemma {:induction false} EarliestFeasibleIsUnique(a: seq<int>, b: seq<int>, candidates: seq<int>, feasible: int -> bool, limit: int)
    requires EarliestFeasible(a, candidates, feasible, limit) && EarliestFeasible(b, candidates, feasible, limit)
    ensures a == b
  {
    if |a| <= |b| {
      PrefixesAgree(a, b, candidates, feasible, limit, |a|);
      SameLength(a, b, candidates, feasible, limit);
    } else {
      PrefixesAgree(b, a, candidates, feasible, limit, |b|);
      SameLength(b, a, candidates, feasible, limit);
    }
  }

  lemma {:induction false} PrefixesAgree(a: seq<int>, b: seq<int>, candidates: seq<int>, feasible: int -> bool, limit: int, n: nat)
    requires EarliestFeasible(a, candidates, feasible, limit) && EarliestFeasible(b, candidates, feasible, limit)
    requires n <= |a| <= |b|
    ensures a[..n] == b[..n]
  {
    if n > 0 {
      PrefixesAgree(a, b, candidates, feasible, limit, n - 1);
      var k := n - 1;
      assert forall i :: 0 <= i < k ==> a[i] == a[..k][i] == b[..k][i] == b[i];
      NotEarlier(a, b, candidates, feasible, limit, k);
      NotEarlier(b, a, candidates, feasible, limit, k);
      assert a[..n] == a[..k] + [a[k]] && b[..n] == b[..k] + [b[k]];
    }
  }

  /** With equal beginnings, the next start of one list is no earlier than that of the other. */
  lemma NotEarlier(a: seq<int>, b: seq<int>, candidates: seq<int>, feasible: int -> bool, limit: int, k: nat)
    requires EarliestFeasible(a, candidates, feasible, limit) && EarliestFeasible(b, candidates, feasible, limit)
    requires k < |a| && k < |b| && forall i :: 0 <= i < k ==> a[i] == b[i]
    ensures a[k] <= b[k]
  {
    assert b[k] in b;
    assert forall i :: 0 <= i < k ==> a[i] == b[i] && b[i] < b[k];
  }

  lemma SameLength(a: seq<int>, b: seq<int>, candidates: seq<int>, feasible: int -> bool, limit: int)
    requires EarliestFeasible(a, candidates, feasible, limit) && EarliestFeasible(b, candidates, feasible, limit)
    requires |a| <= |b| && a == b[..|a|]
    ensures a == b
  {
    if |a| < |b| {
      BeyondIsMissing(a, b, |a|);
    }
    assert b == b[..|b|];
  }

  lemma BeyondIsMissing(a: seq<int>, b: seq<int>, k: nat)
    requires Ascending(b) && |a| <= k < |b| && a == b[..|a|]
    ensures b[k] in b && b[k] !in a
  {
    assert forall i :: 0 <= i < |a| ==> a[i] == b[i];
  }

  // ---------------------------------------------------------------- scanning

  predicate LaterThan(s: int, seen: seq<int>) { forall t :: t in seen ==> t < s }

  /** One more candidate, later than those seen, while there is room. */
  lemma ScanOne(starts: seq<int>, seen: seq<int>, x: int, feasible: int -> bool, limit: int)
    requires EarliestFeasible(starts, seen, feasible, limit) && |starts| < limit
    requires LaterThan(x, seen)
    ensures EarliestFeasible(if feasible(x) then starts + [x] else starts, seen + [x], feasible, limit)
  {
    forall i | 0 <= i < |starts| ensures starts[i] < x {
      assert starts[i] in starts && starts[i] in seen;
    }
  }

  /** A full list stays right when later candidates follow. */
  lemma ScanEnough(starts: seq<int>, seen: seq<int>, all: seq<int>, feasible: int -> bool, limit: int)
    requires EarliestFeasible(starts, seen, feasible, limit) && |starts| == limit
    requires forall s :: s in seen ==> s in all
    requires forall s :: s in all && s !in seen ==> LaterThan(s, seen)
    ensures EarliestFeasible(starts, all, feasible, limit)
  {
    assert forall i :: 0 <= i < |starts| ==> starts[i] in starts;
  }

  lemma PrefixIsEarlier(sorted: seq<int>, i: nat)
    requires Ascending(sorted) && i < |sorted|
    ensures LaterThan(sorted[i], sorted[..i])
    ensures sorted[..i + 1] == sorted[..i] + [sorted[i]]
    ensures forall s :: s in sorted && s !in sorted[..i + 1] ==> LaterThan(s, sorted[..i + 1])
  {
    forall m | 0 <= m <= i ensures sorted[m] in sorted[..i + 1] {
      assert sorted[..i + 1][m] == sorted[m];
    }
    forall s | s in sorted && s !in sorted[..i + 1] ensures LaterThan(s, sorted[..i + 1]) {
      var k :| 0 <= k < |sorted| && sorted[k] == s;
      assert k > i;
    }
  }

  ghost function Fits(availability: seq<TimeWindow>, busy: seq<TimeWindow>, p: SchedulingPolicy, now: int): int -> bool {
    s => Feasible(s, availability, busy, p, now)
  }

  /** Scans the sorted candidates and keeps the feasible ones until the limit is reached. */
  method ProposeSlots(candidates: seq<int>, availability: seq<TimeWindow>, busy: seq<TimeWindow>, p: SchedulingPolicy, now: int)
    returns (options: seq<SlotOption>)
    requires PolicyAccepted(p)
    ensures EarliestFeasible(Starts(options), candidates, Fits(availability, busy, p, now), p.maximumOptions)
    ensures forall i :: 0 <= i < |options| ==> options[i].end == options[i].start + p.duration && options[i].version == p.version
  {
    hide Feasible, EarliestFeasible;
    options := [];
    var sorted := SortedDistinct(candidates);
    ghost var feasible := Fits(availability, busy, p, now);
    ghost var starts: seq<int> := [];
    NothingScanned(feasible, p.maximumOptions);
    var i := 0;
    while i < |sorted|
      invariant 0 <= i <= |sorted| && |starts| < p.maximumOptions
      invariant EarliestFeasible(starts, sorted[..i], feasible, p.maximumOptions)
      invariant starts == Starts(options)
      invariant forall k :: 0 <= k < |options| ==> options[k].end == options[k].start + p.duration && options[k].version == p.version
    {
      var start := sorted[i];
      PrefixIsEarlier(sorted, i);
      ScanOne(starts, sorted[..i], start, feasible, p.maximumOptions);
      if Feasible(start, availability, busy, p, now) {
        options := options + [SlotOption(start, start + p.duration, p.version)];
        starts := starts + [start];
        if |options| == p.maximumOptions {
          assert starts == Starts(options);
          ScanEnough(starts, sorted[..i + 1], sorted, feasible, p.maximumOptions);
          SameCandidates(starts, sorted, candidates, feasible, p.maximumOptions);
          return;
        }
      }
      i := i + 1;
    }
    assert sorted[..i] == sorted;
    SameCandidates(starts, sorted, candidates, feasible, p.maximumOptions);
  }

  lemma NothingScanned(feasible: int -> bool, limit: int)
    requires limit > 0
    ensures EarliestFeasible([], [], feasible, limit)
  {
  }

  lemma SameCandidates(starts: seq<int>, a: seq<int>, b: seq<int>, feasible: int -> bool, limit: int)
    requires EarliestFeasible(starts, a, feasible, limit) && forall s :: s in a <==> s in b
    ensures EarliestFeasible(starts, b, feasible, limit)
  {
  }
}
