/**
 The range a freshness marker claims, merged request by request. Ranges are half-open.
 */
module FreshnessMarker {
  import opened Prelude

  /** A stored time: absent, there but unreadable, or an instant. */
  datatype Field = Absent | Unreadable | At(time: int)

  datatype Marker = Marker(
    reconciled: bool, dateFrom: Field, lastEvent: Field, reconciledUntil: Field, freshUntil: Field)

  datatype Range = Range(start: int, end: int) {
    predicate Holds(t: int) {
      start <= t < end
    }
  }

  /** The range a marker claims, if it claims one that can be read. */
  function CoverageRange(m: Option<Marker>): Option<Range> {
    if m.None? || !m.value.reconciled then None
    else
      var start := if m.value.dateFrom.Absent? then m.value.lastEvent else m.value.dateFrom;
      var end := if m.value.reconciledUntil.At? then m.value.reconciledUntil else m.value.freshUntil;
      if start.At? && end.At? then Some(Range(start.time, end.time)) else None
  }

  /** Which fields of a marker bound its range: two for either bound, in the order of their authority. */
  lemma CoverageIff(m: Option<Marker>, start: int, end: int)
    ensures CoverageRange(m) == Some(Range(start, end)) <==>
      && m.Some? && m.value.reconciled
      && (m.value.dateFrom == At(start) || (m.value.dateFrom == Absent && m.value.lastEvent == At(start)))
      && (m.value.reconciledUntil == At(end)
          || (m.value.reconciledUntil in {Absent, Unreadable} && m.value.freshUntil == At(end)))
  {
  }

  /** An earlier end than start is never merged; otherwise the ranges must overlap or meet. */
  predicate CanMerge(m: Option<Marker>, requested: Range) {
    var existing := CoverageRange(m);
    existing.Some? ==>
      && existing.value.start <= existing.value.end
      && requested.start <= existing.value.end && existing.value.start <= requested.end
  }

  /** A request always merges where no range can be read, and otherwise if that is in order and touches it. */
  lemma CanMergeIff(m: Option<Marker>, requested: Range)
    ensures CanMerge(m, requested) <==>
      forall start, end | CoverageRange(m) == Some(Range(start, end)) ::
        start <= end && requested.start <= end && start <= requested.end
  {
    if CoverageRange(m).Some? {
      var r := CoverageRange(m).value;
      assert CoverageRange(m) == Some(Range(r.start, r.end));
    }
  }

  function Merged(m: Option<Marker>, requested: Range): Range {
    var existing := CoverageRange(m);
    if existing.None? then requested
    else Range(Min(existing.value.start, requested.start), Max(existing.value.end, requested.end))
  }

  /** Ranges that overlap or meet merge into exactly their union. */
  lemma MergedIsUnion(m: Option<Marker>, requested: Range, t: int)
    requires CanMerge(m, requested) && requested.start <= requested.end
    ensures Merged(m, requested).Holds(t)
       <==> requested.Holds(t) || (CoverageRange(m).Some? && CoverageRange(m).value.Holds(t))
  {
  }

  /** Ranges that neither overlap nor meet would merge into more than their union. */
  lemma ApartIsMoreThanUnion(m: Option<Marker>, requested: Range)
    requires CoverageRange(m).Some? && CoverageRange(m).value.start < CoverageRange(m).value.end
    requires requested.start < requested.end && !CanMerge(m, requested)
    ensures exists t ::
      Merged(m, requested).Holds(t) && !requested.Holds(t) && !CoverageRange(m).value.Holds(t)
  {
    var existing := CoverageRange(m).value;
    var t := if requested.start > existing.end then existing.end else requested.end;
    assert Merged(m, requested).Holds(t);
  }

  predicate CoveredBy(ranges: seq<Range>, t: int) {
    exists i | 0 <= i < |ranges| :: ranges[i].Holds(t)
  }

  lemma CoveredAfter(ranges: seq<Range>, r: Range, t: int)
    ensures CoveredBy(ranges + [r], t) <==> CoveredBy(ranges, t) || r.Holds(t)
  {
    var more := ranges + [r];
    assert more[|ranges|] == r;
    if CoveredBy(ranges, t) {
      var i :| 0 <= i < |ranges| && ranges[i].Holds(t);
      assert more[i].Holds(t);
    }
  }

  /** The claim is exactly the union of the ranges. */
  ghost predicate ClaimsExactly(m: Option<Marker>, ranges: seq<Range>) {
    match CoverageRange(m)
    case None => ranges == []
    case Some(claimed) => forall t :: claimed.Holds(t) <==> CoveredBy(ranges, t)
  }

  // ---------------------------------------------------------------------------
  // Requests in sequence
  // ---------------------------------------------------------------------------

  /** Merging depends on the marker only by the range it claims. */
  lemma MergeReadsRangeOnly(m: Option<Marker>, n: Option<Marker>, requested: Range)
    ensures CoverageRange(m) == CoverageRange(n) ==>
      (CanMerge(m, requested) <==> CanMerge(n, requested)) && Merged(m, requested) == Merged(n, requested)
  {
  }

  function MarkerOf(claimed: Option<Range>): Option<Marker> {
    if claimed.None? then None
    else
      var c := claimed.value;
      Some(Marker(true, At(c.start), At(c.start), At(c.end), At(c.end)))
  }

  /** What merging models claim after one request after another, from nothing. */
  function Claim(requests: seq<Range>): (r: Option<Range>)
    ensures r.None? <==> requests == []
  {
    if requests == [] then None
    else
      var before, last := Claim(requests[..|requests| - 1]), requests[|requests| - 1];
      var m := MarkerOf(before);
      if CanMerge(m, last) then Some(Merged(m, last)) else before
  }

  lemma ClaimAfter(requests: seq<Range>, r: Range)
    ensures var before := Claim(requests);
      Claim(requests + [r]) ==
        if CanMerge(MarkerOf(before), r) then Some(Merged(MarkerOf(before), r)) else before
  {
    assert (requests + [r])[..|requests|] == requests;
  }

  /** The marker of one seller and read model. */
  class MarkerStore {
    /** Interval models replace the range; the others merge it. */
    const interval: bool
    var marker: Option<Marker>
    ghost var merged: seq<Range>
    ghost var requests: seq<Range>

    constructor (interval: bool)
      ensures Valid() && marker.None? && merged == requests == [] && this.interval == interval
    {
      this.interval := interval;
      marker := None;
      merged := [];
      requests := [];
    }

    ghost predicate Valid()
      reads this
    {
      && ClaimsExactly(marker, merged)
      && CoverageRange(marker) ==
           if !interval then Claim(requests)
           else if requests == [] then None
           else Some(requests[|requests| - 1])
    }

    /**
     One complete reconciliation of a range. The claim stays exactly the union of what was
     merged: it never covers an instant that no request covered.
     */
    method Write(requested: Range) returns (written: bool)
      requires Valid() && requested.start < requested.end
      modifies this
      ensures Valid()
      ensures written <==> interval || old(CanMerge(marker, requested))
      ensures requests == old(requests) + [requested]
      ensures !written ==> marker == old(marker) && merged == old(merged)
      ensures written ==> merged == (if interval then [] else old(merged)) + [requested]
      ensures written ==>
        && CoverageRange(marker).Some? && marker.value.reconciled
        && marker.value.lastEvent == marker.value.dateFrom && marker.value.freshUntil == marker.value.reconciledUntil
        && forall t | requested.Holds(t) :: CoverageRange(marker).value.Holds(t)
    {
      ClaimAfter(requests, requested);
      MergeReadsRangeOnly(marker, MarkerOf(Claim(requests)), requested);
      requests := requests + [requested];
      if !interval && !CanMerge(marker, requested) {
        return false;
      }
      var claimed := if interval then requested else Merged(marker, requested);
      ghost var before, ranges := marker, if interval then [] else merged;
      marker := Some(Marker(true, At(claimed.start), At(claimed.start), At(claimed.end), At(claimed.end)));
      merged := ranges + [requested];
      forall t ensures claimed.Holds(t) <==> CoveredBy(merged, t) {
        CoveredAfter(ranges, requested, t);
        if !interval {
          MergedIsUnion(before, requested, t);
        }
      }
      written := true;
    }
  }

  // ---------------------------------------------------------------------------
  // When the order of the requests matters
  // ---------------------------------------------------------------------------

  /** The two ranges overlap or meet. */
  predicate Touch(a: Range, b: Range) {
    a.start <= b.end && b.start <= a.end
  }

  predicate Covers(claimed: Range, r: Range) {
    claimed.start <= r.start && r.end <= claimed.end
  }

  ghost predicate NonEmpty(requests: seq<Range>) {
    forall r | r in requests :: r.start < r.end
  }

  ghost predicate SameRequests(a: seq<Range>, b: seq<Range>) {
    multiset(a) == multiset(b)
  }

  lemma SameMembers(a: seq<Range>, b: seq<Range>, r: Range)
    requires SameRequests(a, b)
    ensures r in a <==> r in b
  {
    assert r in a <==> r in multiset(a);
    assert r in b <==> r in multiset(b);
  }

  lemma {:induction false} ClaimIsRange(requests: seq<Range>)
    requires requests != [] && NonEmpty(requests)
    ensures Claim(requests).value.start < Claim(requests).value.end
  {
    var front, last := requests[..|requests| - 1], requests[|requests| - 1];
    assert last in requests;
    if front != [] {
      ClaimIsRange(front);
    }
  }

  /** One more request of a non-empty list. */
  lemma ClaimGrows(requests: seq<Range>, r: Range)
    requires requests != [] && NonEmpty(requests + [r])
    ensures var before, after := Claim(requests).value, Claim(requests + [r]).value;
      && Covers(after, before)
      && after == (if Touch(before, r) then Range(Min(before.start, r.start), Max(before.end, r.end)) else before)
  {
    assert NonEmpty(requests) by {
      assert forall x | x in requests :: x in requests + [r];
    }
    ClaimIsRange(requests);
    ClaimAfter(requests, r);
  }

  // Every request merged.

  /** No request in the list is dropped. */
  predicate AllMerge(requests: seq<Range>) {
    requests == []
    || (AllMerge(requests[..|requests| - 1])
        && CanMerge(MarkerOf(Claim(requests[..|requests| - 1])), requests[|requests| - 1]))
  }

  ghost predicate PairwiseTouch(requests: seq<Range>) {
    forall a, b | a in requests && b in requests :: Touch(a, b)
  }

  /** The ends of the claim are ends of requests. */
  lemma {:induction false} ClaimEnds(requests: seq<Range>) returns (first: Range, last: Range)
    requires requests != [] && NonEmpty(requests)
    ensures first in requests && last in requests
    ensures Claim(requests).value == Range(first.start, last.end)
  {
    var front, r := requests[..|requests| - 1], requests[|requests| - 1];
    first, last := r, r;
    if front != [] {
      var f, l := ClaimEnds(front);
      assert front + [r] == requests;
      ClaimGrows(front, r);
      var before := Claim(front).value;
      if !Touch(before, r) || before.start <= r.start { first := f; }
      if !Touch(before, r) || before.end >= r.end { last := l; }
    }
  }

  lemma {:induction false} TouchingAllMerge(requests: seq<Range>)
    requires NonEmpty(requests) && PairwiseTouch(requests)
    ensures AllMerge(requests)
  {
    if requests != [] {
      var front, r := requests[..|requests| - 1], requests[|requests| - 1];
      assert forall x | x in front :: x in requests;
      assert r in requests;
      TouchingAllMerge(front);
      if front != [] {
        var first, last := ClaimEnds(front);
        assert Touch(first, r) && Touch(last, r);
        ClaimIsRange(front);
      }
    }
  }

  lemma {:induction false} MergedPrefix(requests: seq<Range>, k: nat)
    requires k <= |requests| && AllMerge(requests)
    ensures AllMerge(requests[..k])
  {
    if k == |requests| {
      assert requests[..k] == requests;
    } else {
      assert requests[..|requests| - 1][..k] == requests[..k];
      MergedPrefix(requests[..|requests| - 1], k);
    }
  }

  /** The requests without the one at a position. */
  function Without(requests: seq<Range>, i: nat): seq<Range>
    requires i < |requests|
  {
    requests[..i] + requests[i + 1..]
  }

  lemma FirstThenRest(requests: seq<Range>, i: nat)
    requires i < |requests|
    ensures SameRequests([requests[i]] + Without(requests, i), requests)
  {
    assert requests == requests[..i] + [requests[i]] + requests[i + 1..];
  }

  lemma SameAfter(head: seq<Range>, a: seq<Range>, b: seq<Range>)
    requires SameRequests(a, b)
    ensures SameRequests(head + a, head + b)
  {
    assert multiset(head + a) == multiset(head) + multiset(a);
    assert multiset(head + b) == multiset(head) + multiset(b);
  }

  lemma TwoApart(a: Range, b: Range)
    requires a.start < a.end && !Touch(a, b)
    ensures !AllMerge([a, b])
  {
    assert [a, b][..1] == [a] && [a][..0] == [];
    assert Claim([a]) == Some(a);
  }

  /** Two requests that do not touch, placed first, lose the second. */
  lemma ApartFirstDrops(requests: seq<Range>, a: Range, b: Range) returns (order: seq<Range>)
    requires NonEmpty(requests) && a in requests && b in requests && !Touch(a, b)
    ensures SameRequests(order, requests) && !AllMerge(order)
  {
    var rest := AfterFirst(requests, a);
    SameMembers([a] + rest, requests, b);
    var others := AfterFirst(rest, b);
    SameAfter([a], [b] + others, rest);
    order := [a] + ([b] + others);
    TwoApart(a, b);
    assert order[..2] == [a, b];
    if AllMerge(order) {
      MergedPrefix(order, 2);
    }
  }

  /** The requests can be made with any one of them first. */
  lemma AfterFirst(requests: seq<Range>, a: Range) returns (rest: seq<Range>)
    requires a in requests
    ensures SameRequests([a] + rest, requests)
  {
    var i :| 0 <= i < |requests| && requests[i] == a;
    FirstThenRest(requests, i);
    rest := Without(requests, i);
  }

  /** Every order of the requests merges every one of them exactly when any two of them touch. */
  lemma EveryOrderMergesIff(requests: seq<Range>)
    requires NonEmpty(requests)
    ensures (forall order :: SameRequests(order, requests) ==> AllMerge(order)) <==> PairwiseTouch(requests)
  {
    if PairwiseTouch(requests) {
      forall order | SameRequests(order, requests) ensures AllMerge(order) {
        forall r ensures r in order <==> r in requests {
          SameMembers(order, requests, r);
        }
        TouchingAllMerge(order);
      }
    } else {
      var a, b :| a in requests && b in requests && !Touch(a, b);
      var order := ApartFirstDrops(requests, a, b);
    }
  }

  // The whole range claimed.

  /** Everything a claim covers. */
  ghost predicate CoversAll(claimed: Range, requests: seq<Range>) {
    forall r | r in requests :: Covers(claimed, r)
  }

  ghost predicate ReachesLeft(requests: seq<Range>, a: Range, b: Range) {
    exists c | c in requests :: Touch(a, c) && c.start <= b.start
  }

  ghost predicate ReachesRight(requests: seq<Range>, a: Range, b: Range) {
    exists d | d in requests :: Touch(a, d) && b.end <= d.end
  }

  /** From each request, the requests it touches already span every request. */
  ghost predicate EachSpansAll(requests: seq<Range>) {
    forall a, b | a in requests && b in requests :: ReachesLeft(requests, a, b) && ReachesRight(requests, a, b)
  }

  /** Whatever the first request touches is merged whenever it comes. */
  lemma {:induction false} FirstMergesItsNeighbours(requests: seq<Range>, c: Range)
    requires requests != [] && NonEmpty(requests) && c in requests && Touch(requests[0], c)
    ensures Covers(Claim(requests).value, requests[0]) && Covers(Claim(requests).value, c)
  {
    var n := |requests| - 1;
    var front, r := requests[..n], requests[n];
    if front == [] {
      assert Claim(requests) == Some(r);
    } else {
      assert front + [r] == requests && front[0] == requests[0];
      assert forall x | x in front :: x in requests;
      FirstMergesItsNeighbours(front, if c in front then c else front[0]);
      ClaimGrows(front, r);
    }
  }

  lemma SpannedClaimsAll(requests: seq<Range>, order: seq<Range>)
    requires requests != [] && NonEmpty(requests) && EachSpansAll(requests) && SameRequests(order, requests)
    ensures order != [] && CoversAll(Claim(order).value, order)
  {
    forall r ensures r in order <==> r in requests {
      SameMembers(order, requests, r);
    }
    assert requests[0] in order;
    forall b | b in order ensures Covers(Claim(order).value, b) {
      assert ReachesLeft(requests, order[0], b) && ReachesRight(requests, order[0], b);
      var c :| c in requests && Touch(order[0], c) && c.start <= b.start;
      var d :| d in requests && Touch(order[0], d) && b.end <= d.end;
      FirstMergesItsNeighbours(order, c);
      FirstMergesItsNeighbours(order, d);
    }
  }

  /** The requests that touch a range, or those that do not. */
  function Select(requests: seq<Range>, a: Range, touching: bool): seq<Range> {
    if requests == [] then []
    else if Touch(a, requests[0]) == touching then [requests[0]] + Select(requests[1..], a, touching)
    else Select(requests[1..], a, touching)
  }

  lemma {:induction false} Selected(requests: seq<Range>, a: Range, touching: bool, r: Range)
    ensures r in Select(requests, a, touching) <==> r in requests && Touch(a, r) == touching
  {
    if requests != [] {
      Selected(requests[1..], a, touching, r);
    }
  }

  lemma {:induction false} SelectedSplit(requests: seq<Range>, a: Range)
    ensures multiset(Select(requests, a, false)) + multiset(Select(requests, a, true)) == multiset(requests)
  {
    if requests != [] {
      SelectedSplit(requests[1..], a);
      assert requests == [requests[0]] + requests[1..];
    }
  }

  /** The claim after a first request, then requests apart from it, is the first request. */
  lemma {:induction false} ApartStay(a: Range, apart: seq<Range>)
    requires NonEmpty([a] + apart) && forall r | r in apart :: !Touch(a, r)
    ensures Claim([a] + apart) == Some(a)
  {
    if apart == [] {
      assert [a] + apart == [a] && [a][..0] == [];
    } else {
      var front, r := apart[..|apart| - 1], apart[|apart| - 1];
      assert [a] + apart == ([a] + front) + [r];
      assert forall x | x in [a] + front :: x in [a] + apart;
      assert forall x | x in front :: x in apart;
      assert r in apart;
      ApartStay(a, front);
      ClaimGrows([a] + front, r);
    }
  }

  /** Requests that all start after a bound keep the claim after it. */
  lemma {:induction false} StaysAfter(before: seq<Range>, more: seq<Range>, low: int)
    requires before != [] && NonEmpty(before + more)
    requires Claim(before).value.start > low && forall r | r in more :: r.start > low
    ensures Claim(before + more).value.start > low
  {
    if more == [] {
      assert before + more == before;
    } else {
      var front, r := more[..|more| - 1], more[|more| - 1];
      assert before + more == (before + front) + [r];
      assert forall x | x in before + front :: x in before + more;
      assert forall x | x in front :: x in more;
      assert r in more;
      StaysAfter(before, front, low);
      ClaimGrows(before + front, r);
    }
  }

  /** Requests that all end before a bound keep the claim before it. */
  lemma {:induction false} StaysBefore(before: seq<Range>, more: seq<Range>, high: int)
    requires before != [] && NonEmpty(before + more)
    requires Claim(before).value.end < high && forall r | r in more :: r.end < high
    ensures Claim(before + more).value.end < high
  {
    if more == [] {
      assert before + more == before;
    } else {
      var front, r := more[..|more| - 1], more[|more| - 1];
      assert before + more == (before + front) + [r];
      assert forall x | x in before + front :: x in before + more;
      assert forall x | x in front :: x in more;
      assert r in more;
      StaysBefore(before, front, high);
      ClaimGrows(before + front, r);
    }
  }

  ghost predicate ClaimsAll(order: seq<Range>) {
    order != [] && CoversAll(Claim(order).value, order)
  }

  /** One request first, then those apart from it, then those it touches. */
  lemma ApartFirst(requests: seq<Range>, a: Range) returns (apart: seq<Range>, near: seq<Range>)
    requires NonEmpty(requests) && a in requests
    ensures SameRequests([a] + apart + near, requests) && NonEmpty([a] + apart + near)
    ensures Claim([a] + apart) == Some(a)
    ensures forall r | r in near :: r in requests && Touch(a, r)
  {
    var rest := AfterFirst(requests, a);
    apart, near := Select(rest, a, false), Select(rest, a, true);
    SelectedSplit(rest, a);
    SameAfter([a], apart + near, rest);
    assert [a] + apart + near == [a] + (apart + near);
    forall r ensures r in [a] + apart + near <==> r in requests {
      SameMembers([a] + apart + near, requests, r);
    }
    forall r ensures (r in apart ==> !Touch(a, r)) && (r in near ==> Touch(a, r)) {
      Selected(rest, a, false, r);
      Selected(rest, a, true, r);
    }
    assert forall r | r in [a] + apart :: r in [a] + apart + near;
    ApartStay(a, apart);
  }

  /** A request whose neighbours do not span another one, made first, loses part of that other one. */
  lemma UnspannedIsLost(requests: seq<Range>, a: Range, b: Range) returns (order: seq<Range>)
    requires NonEmpty(requests) && a in requests && b in requests
    requires !ReachesLeft(requests, a, b) || !ReachesRight(requests, a, b)
    ensures SameRequests(order, requests) && !ClaimsAll(order)
  {
    var apart, near := ApartFirst(requests, a);
    order := [a] + apart + near;
    SameMembers(order, requests, b);
    if !ReachesLeft(requests, a, b) {
      StaysAfter([a] + apart, near, b.start);
    } else {
      StaysBefore([a] + apart, near, b.end);
    }
    assert b in order && !Covers(Claim(order).value, b);
  }

  /**
   The order of the requests does not matter to what is claimed in the end exactly when,
   from each request, the requests it touches already span all of them.
   */
  lemma EveryOrderClaimsAllIff(requests: seq<Range>)
    requires requests != [] && NonEmpty(requests)
    ensures (forall order :: SameRequests(order, requests) ==> ClaimsAll(order)) <==> EachSpansAll(requests)
  {
    if EachSpansAll(requests) {
      forall order | SameRequests(order, requests) ensures ClaimsAll(order) {
        SpannedClaimsAll(requests, order);
      }
    } else {
      var a, b :| a in requests && b in requests
        && (!ReachesLeft(requests, a, b) || !ReachesRight(requests, a, b));
      var order := UnspannedIsLost(requests, a, b);
    }
  }

  /** Three adjoining requests: in order they claim everything, out of order the last one is lost. */
  lemma OrderOfRequestsMatters(a: int, b: int, c: int, d: int)
    requires a < b < c < d
    ensures Claim([Range(a, b), Range(b, c), Range(c, d)]) == Some(Range(a, d))
    ensures Claim([Range(a, b), Range(c, d), Range(b, c)]) == Some(Range(a, c))
  {
    var x, y, z := Range(a, b), Range(b, c), Range(c, d);
    assert [x][..0] == [] && [x, y][..1] == [x] && [x, z][..1] == [x];
    assert [x, y, z][..2] == [x, y] && [x, z, y][..2] == [x, z];
    assert Claim([x]) == Some(x) && Claim([x, y]) == Some(Range(a, c)) && Claim([x, z]) == Some(x);
  }
}
