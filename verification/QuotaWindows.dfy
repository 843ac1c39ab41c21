/**
 Cutting a date range into ten-day windows, and counting claims over the windows.
 Times are microseconds; ranges are half-open.
 */
module QuotaWindows {
  import opened Prelude

  const DAY: int := 86400 * 1_000_000
  const CHUNK: int := 10 * DAY

  datatype Slice = Slice(start: int, end: int)

  /** The windows from a start: ten days each, the last one cut at the end. */
  function Tiling(start: int, end: int): seq<Slice>
    decreases end - start
  {
    if start >= end then []
    else
      var cut := Min(start + CHUNK, end);
      [Slice(start, cut)] + Tiling(cut, end)
  }

  /** Windows laid end to end from start to end, none empty, and only the last one short. */
  ghost predicate Tiles(slices: seq<Slice>, start: int, end: int)
    requires start <= end
  {
    && (slices == [] <==> start == end)
    && (slices != [] ==> slices[0].start == start && slices[|slices| - 1].end == end)
    && (forall i | 0 < i < |slices| :: slices[i].start == slices[i - 1].end)
    && (forall i | 0 <= i < |slices| :: slices[i].start < slices[i].end <= slices[i].start + 864_000_000_000)
    && (forall i | 0 <= i < |slices| - 1 :: slices[i].end == slices[i].start + 864_000_000_000)
  }

  lemma {:induction false} TilingTiles(start: int, end: int)
    requires start <= end
    ensures Tiles(Tiling(start, end), start, end)
    decreases end - start
  {
    if start < end {
      var cut := Min(start + CHUNK, end);
      TilingTiles(cut, end);
      var rest := Tiling(cut, end);
      assert rest != [] ==> rest[0].start == cut;
    }
  }

  /** There is only one way to lay the windows. */
  lemma {:induction false} OneTiling(slices: seq<Slice>, start: int, end: int)
    requires start <= end && Tiles(slices, start, end)
    ensures slices == Tiling(start, end)
    decreases end - start
  {
    if start < end {
      var cut := Min(start + CHUNK, end);
      var rest := slices[1..];
      assert slices[0] == Slice(start, slices[0].end);
      if rest == [] {
        assert slices[0].end == end == cut;
      } else {
        assert slices[1].start == slices[0].end;
        assert slices[0].end == start + CHUNK;
        LaterStarts(slices, 1);
        assert rest[|rest| - 1] == slices[|slices| - 1];
        assert cut == start + CHUNK;
        forall i | 0 < i < |rest| ensures rest[i].start == rest[i - 1].end {
          assert slices[i + 1].start == slices[i].end;
        }
        forall i | 0 <= i < |rest| - 1 ensures rest[i].end == rest[i].start + CHUNK {
          assert slices[i + 1].end == slices[i + 1].start + CHUNK;
        }
      }
      OneTiling(rest, cut, end);
      assert slices == [slices[0]] + rest;
    }
  }

  lemma {:induction false} LaterStarts(slices: seq<Slice>, i: nat)
    requires i < |slices|
    requires forall k | 0 < k < |slices| :: slices[k].start == slices[k - 1].end
    requires forall k | 0 <= k < |slices| :: slices[k].start < slices[k].end
    ensures slices[i].start < slices[|slices| - 1].end
    decreases |slices| - i
  {
    if i < |slices| - 1 {
      LaterStarts(slices, i + 1);
      assert slices[i + 1].start == slices[i].end;
    }
  }

  /** Where window i of a run starts and ends, closed at the end of the range. */
  function Edge(start: int, end: int, i: int): int {
    Min(start + i * CHUNK, end)
  }

  lemma {:induction false} TilingEdges(start: int, end: int, i: nat)
    requires i < |Tiling(start, end)|
    ensures Tiling(start, end)[i] == Slice(Edge(start, end, i), Edge(start, end, i + 1))
    ensures Edge(start, end, i) < end
    decreases i
  {
    if i > 0 {
      var cut := Min(start + CHUNK, end);
      TilingEdges(cut, end, i - 1);
    }
  }

  /** The number of windows is the least one that reaches the end. */
  lemma {:induction false} TilingLength(start: int, end: int)
    requires start <= end
    ensures Edge(start, end, |Tiling(start, end)|) == end
    decreases end - start
  {
    if start < end {
      var cut := Min(start + CHUNK, end);
      TilingLength(cut, end);
    }
  }

  // ---------------------------------------------------------------------------
  // The two loops that cut ranges
  // ---------------------------------------------------------------------------

  /** The windows of a run, as its creation counts them. */
  method PartitionWindows(start: int, end: int) returns (windows: seq<Slice>)
    ensures windows == Tiling(start, end)
  {
    windows := [];
    var cursor := start;
    while cursor < end
      invariant windows + Tiling(cursor, end) == Tiling(start, end)
      decreases end - cursor
    {
      var cut := Min(cursor + CHUNK, end);
      assert Tiling(cursor, end) == [Slice(cursor, cut)] + Tiling(cut, end);
      windows := windows + [Slice(cursor, cut)];
      cursor := cut;
    }
  }

  /** The range from the first to the last of two days, given by number; none if they are out of order. */
  function DateRange(from: int, to: int): (r: Option<Slice>)
    ensures r.Some? <==> from <= to
    ensures r.Some? ==> r.value.start < r.value.end && (r.value.end - r.value.start) % 86_400_000_000 == 0
    ensures r.Some? ==> forall t :: r.value.start <= t < r.value.end <==> from <= t / 86_400_000_000 <= to
  {
    if to < from then None
    else
      DaysBetween(from, to);
      Some(Slice(from * DAY, (to + 1) * DAY))
  }

  lemma DaysBetween(from: int, to: int)
    ensures ((to + 1) * DAY - from * DAY) % DAY == 0
    ensures forall t :: from * DAY <= t < (to + 1) * DAY <==> from <= t / DAY <= to
  {
    assert (to + 1) * DAY - from * DAY == (to + 1 - from) * DAY;
  }

  /**
   The chunks of one reconciliation. A range of whole days, the only kind its dates can
   give, is tiled; a range longer than ten days by less than a day would stay whole.
   */
  method ChunkRanges(start: int, end: int) returns (chunks: seq<Slice>)
    ensures start < end && (end - start) % 86_400_000_000 == 0 ==> chunks == Tiling(start, end)
    ensures end <= start ==> chunks == [Slice(start, end)]
    ensures start < end ==>
      (chunks == Tiling(start, end) <==> !(864_000_000_000 < end - start < 950_400_000_000))
    ensures 864_000_000_000 < end - start < 950_400_000_000 ==> chunks == [Slice(start, end)]
  {
    if end <= start {
      return [Slice(start, end)];
    }
    var totalDays := (end - start) / DAY;
    if totalDays <= 10 {
      chunks := [Slice(start, end)];
      WholeIsTiling(start, end);
      return;
    }
    chunks := [];
    var cursor := start;
    while cursor < end
      invariant chunks + Tiling(cursor, end) == Tiling(start, end)
      decreases end - cursor
    {
      var cut := Min(cursor + CHUNK, end);
      assert Tiling(cursor, end) == [Slice(cursor, cut)] + Tiling(cut, end);
      chunks := chunks + [Slice(cursor, cut)];
      cursor := cut;
    }
  }

  lemma WholeIsTiling(start: int, end: int)
    requires start < end
    ensures [Slice(start, end)] == Tiling(start, end) <==> end - start <= CHUNK
  {
    if end - start > CHUNK {
      assert Tiling(start, end)[0] == Slice(start, start + CHUNK);
    }
  }

  // ---------------------------------------------------------------------------
  // Counting over windows
  // ---------------------------------------------------------------------------

  /** A stored claim: when it was created and whether all its fields are filled. */
  datatype Claim = Claim(created: int, complete: bool)

  predicate Within(c: Claim, start: int, end: int) {
    start <= c.created < end
  }

  function Persisted(claims: seq<Claim>, start: int, end: int): nat {
    if claims == [] then 0
    else (if Within(claims[0], start, end) then 1 else 0) + Persisted(claims[1..], start, end)
  }

  function Complete(claims: seq<Claim>, start: int, end: int): nat {
    if claims == [] then 0
    else (if Within(claims[0], start, end) && claims[0].complete then 1 else 0) + Complete(claims[1..], start, end)
  }

  /** The positions of the claims created in a range. */
  ghost function CreatedIn(claims: seq<Claim>, start: int, end: int): set<int> {
    set i | 0 <= i < |claims| && start <= claims[i].created && claims[i].created < end
  }

  ghost function CompleteIn(claims: seq<Claim>, start: int, end: int): set<int> {
    set i | 0 <= i < |claims| && start <= claims[i].created && claims[i].created < end && claims[i].complete
  }

  lemma {:induction false} PersistedAre(claims: seq<Claim>, start: int, end: int)
    ensures Persisted(claims, start, end) == |CreatedIn(claims, start, end)|
  {
    if claims != [] {
      PersistedAre(claims[1..], start, end);
      var rest, all := CreatedIn(claims[1..], start, end), CreatedIn(claims, start, end);
      Prepended(all, rest, |claims| - 1, 0 in all);
    }
  }

  lemma {:induction false} CompleteAre(claims: seq<Claim>, start: int, end: int)
    ensures Complete(claims, start, end) == |CompleteIn(claims, start, end)|
  {
    if claims != [] {
      CompleteAre(claims[1..], start, end);
      var rest, all := CompleteIn(claims[1..], start, end), CompleteIn(claims, start, end);
      Prepended(all, rest, |claims| - 1, 0 in all);
    }
  }

  /** The counts are how many claims were created in the range, and how many of those are complete. */
  lemma CountsAre(claims: seq<Claim>, start: int, end: int)
    ensures Persisted(claims, start, end) == |CreatedIn(claims, start, end)|
    ensures Complete(claims, start, end) == |CompleteIn(claims, start, end)|
  {
    PersistedAre(claims, start, end);
    CompleteAre(claims, start, end);
  }

  lemma CompleteIsPersisted(claims: seq<Claim>, start: int, end: int)
    ensures Complete(claims, start, end) <= Persisted(claims, start, end)
  {
  }

  lemma NoneWithin(claims: seq<Claim>, start: int, end: int)
    requires end <= start
    ensures Persisted(claims, start, end) == Complete(claims, start, end) == 0
  {
  }

  lemma {:induction false} CountsAdd(claims: seq<Claim>, start: int, cut: int, end: int)
    requires start <= cut <= end
    ensures Persisted(claims, start, end) == Persisted(claims, start, cut) + Persisted(claims, cut, end)
    ensures Complete(claims, start, end) == Complete(claims, start, cut) + Complete(claims, cut, end)
  {
    if claims != [] {
      CountsAdd(claims[1..], start, cut, end);
    }
  }

  function SumPersisted(claims: seq<Claim>, slices: seq<Slice>): nat {
    if slices == [] then 0
    else
      var last := slices[|slices| - 1];
      SumPersisted(claims, slices[..|slices| - 1]) + Persisted(claims, last.start, last.end)
  }

  function SumComplete(claims: seq<Claim>, slices: seq<Slice>): nat {
    if slices == [] then 0
    else
      var last := slices[|slices| - 1];
      SumComplete(claims, slices[..|slices| - 1]) + Complete(claims, last.start, last.end)
  }

  /** The first n windows of a range, by index; past the end they are empty. */
  function Windows(start: int, end: int, n: nat): (w: seq<Slice>)
    ensures |w| == n
  {
    if n == 0 then [] else Windows(start, end, n - 1) + [Slice(Edge(start, end, n - 1), Edge(start, end, n))]
  }

  /** The counts over the windows add up to the count over the range they cover. */
  lemma {:induction false} WindowCountsAdd(claims: seq<Claim>, start: int, end: int, n: nat)
    requires start <= end
    ensures SumPersisted(claims, Windows(start, end, n)) == Persisted(claims, start, Edge(start, end, n))
    ensures SumComplete(claims, Windows(start, end, n)) == Complete(claims, start, Edge(start, end, n))
  {
    if n == 0 {
      NoneWithin(claims, start, start);
    } else {
      WindowCountsAdd(claims, start, end, n - 1);
      var w := Windows(start, end, n);
      assert w[..n - 1] == Windows(start, end, n - 1);
      CountsAdd(claims, start, Edge(start, end, n - 1), Edge(start, end, n));
    }
  }

  /** n windows reach the end exactly when there are at least as many as the tiling has. */
  lemma ReachesIff(start: int, end: int, n: nat)
    requires start < end
    ensures Edge(start, end, n) == end <==> n >= |Tiling(start, end)|
  {
    TilingLength(start, end);
    if n < |Tiling(start, end)| {
      TilingEdges(start, end, n);
    }
  }
}
