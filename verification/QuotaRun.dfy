/**
 An authorised DEVOLUCIONES quota run: one ten-day window per advancement, at least ten
 minutes apart, and a freshness marker only once the windows prove the whole range.
 */
module QuotaRun {
  import opened Prelude
  import opened QuotaWindows

  const NOT_BEFORE: int := 10 * 60 * 1_000_000
  const MARKER_VALIDITY: int := 30 * 60 * 1_000_000

  /** A window's proof; `fingerprinted` says that both its fingerprints are there. */
  datatype Proof = Proof(expected: int, persisted: int, complete: int, missing: int, fingerprinted: bool)

  predicate CompleteProof(p: Proof) {
    && 0 <= p.expected == p.persisted == p.complete
    && p.missing == 0
    && p.fingerprinted
  }

  /** What a proof shows: every expected claim is persisted and complete, and none is missing. */
  ghost predicate Shows(p: Proof) {
    p.expected >= 0 && p.persisted == p.expected && p.complete == p.expected && p.missing == 0 && p.fingerprinted
  }

  lemma CompleteProofIff(p: Proof)
    ensures CompleteProof(p) <==> Shows(p)
  {
  }

  datatype WindowState = WindowPrepared | WindowCompleted

  datatype Window = Window(index: int, start: int, end: int, state: WindowState, proof: Proof)

  datatype RunState = Authorized | Active | Finalizing | Completed | Failed | Expired

  datatype Marker = Marker(dateFrom: int, freshUntil: int, validUntil: int)

  datatype Outcome = Outcome(advanced: nat, finalized: nat)

  /** `Interrupted` is any call that raises without the run having failed. */
  datatype Error = InvalidState | InvalidBounds | RunFailed | Interrupted

  /** How the source call for a window ends; a policy wait leaves the run as it is. */
  datatype SourceResult = PolicyWait | SourceFails | Proven(proof: Proof)

  /**
   What one advancement meets outside: two clock readings, the lease, the guarded writes
   that lose it, the source, and the claims the final readback sees (none if it raises).
   */
  datatype World = World(
    clock: int, now: int, leased: bool, prepareLost: bool, finishLost: bool, finalLost: bool,
    source: SourceResult, claims: Option<seq<Claim>>)

  /** A window that completed: which one, and when its advancement read the clock. */
  datatype Entry = Entry(index: int, at: int)

  function Expected(windows: seq<Window>): int {
    if windows == [] then 0 else Expected(windows[..|windows| - 1]) + windows[|windows| - 1].proof.expected
  }

  /** The proof of the full range, read back from the stored claims. */
  function Readback(start: int, end: int, windows: seq<Window>, claims: seq<Claim>): Proof {
    var expected, persisted := Expected(windows), Persisted(claims, start, end);
    Proof(expected, persisted, Complete(claims, start, end), Max(expected - persisted, 0), true)
  }

  /** What the store holds of window i: nothing, a prepared window, or a proved one. */
  ghost predicate WindowValid(range: Slice, count: nat, next: int, windows: map<int, Window>, i: int) {
    i in windows ==>
      && 0 <= i < count && i <= next
      && Fits(range, windows[i], i)
      && (windows[i].state.WindowCompleted? <==> i < next)
      && (i < next ==> Shows(windows[i].proof))
  }

  /** The window has the index and the bounds of slot i. */
  predicate Fits(range: Slice, window: Window, i: int) {
    && window.index == i
    && window.start == Edge(range.start, range.end, i) && window.end == Edge(range.start, range.end, i + 1)
  }

  ghost predicate WindowsValid(range: Slice, count: nat, next: int, windows: map<int, Window>) {
    && 0 <= next <= count
    && (forall i :: WindowValid(range, count, next, windows, i))
    && (forall i | 0 <= i < next :: i in windows)
  }

  ghost predicate EntryValid(log: seq<Entry>, k: int)
    requires 0 <= k < |log|
  {
    log[k].index == k && (k > 0 ==> log[k].at >= log[k - 1].at + 600_000_000)
  }

  /** Windows completed in index order, each once, ten minutes apart. */
  ghost predicate LogValid(log: seq<Entry>, next: int, notBefore: Option<int>) {
    && |log| == next
    && (forall k | 0 <= k < |log| :: EntryValid(log, k))
    && notBefore == if log == [] then None else Some(log[|log| - 1].at + 600_000_000)
  }

  lemma PreparedIsValid(range: Slice, count: nat, next: int, windows: map<int, Window>, window: Window)
    requires WindowsValid(range, count, next, windows) && next < count
    requires Fits(range, window, next) && window.state.WindowPrepared?
    ensures WindowsValid(range, count, next, windows[next := window])
  {
    var more := windows[next := window];
    forall i ensures WindowValid(range, count, next, more, i) {
      assert WindowValid(range, count, next, windows, i);
    }
  }

  lemma CompletedIsValid(range: Slice, count: nat, next: int, windows: map<int, Window>, window: Window)
    requires WindowsValid(range, count, next, windows) && next < count
    requires Fits(range, window, next) && window.state.WindowCompleted? && Shows(window.proof)
    ensures WindowsValid(range, count, next + 1, windows[next := window])
  {
    var more, after := windows[next := window], next + 1;
    forall i ensures WindowValid(range, count, after, more, i) {
      assert WindowValid(range, count, next, windows, i);
    }
  }

  lemma LoggedIsValid(log: seq<Entry>, next: int, notBefore: Option<int>, at: int)
    requires LogValid(log, next, notBefore) && (notBefore.Some? ==> at >= notBefore.value)
    ensures LogValid(log + [Entry(next, at)], next + 1, Some(at + NOT_BEFORE))
  {
    var more := log + [Entry(next, at)];
    forall k | 0 <= k < |more| ensures EntryValid(more, k) {
      if k < next { assert EntryValid(log, k); }
    }
  }

  lemma AllStored(range: Slice, count: nat, windows: map<int, Window>)
    requires WindowsValid(range, count, count, windows)
    ensures |windows| == count
  {
    forall i ensures i in windows.Keys <==> 0 <= i < count {
      assert WindowValid(range, count, count, windows, i);
    }
    CountKeys(windows.Keys, count);
    assert |windows| == |windows.Keys|;
  }

  /** Window i is stored, proved, and has exactly the bounds of the slice. */
  ghost predicate ProvedOn(windows: map<int, Window>, i: int, slice: Slice) {
    i in windows && Slice(windows[i].start, windows[i].end) == slice && Shows(windows[i].proof)
  }

  /** The first stored windows are the ten-day tiling of the range, each proved; any others are empty. */
  ghost predicate ProvedTiling(range: Slice, count: nat, windows: map<int, Window>) {
    var tiling := Tiling(range.start, range.end);
    && |tiling| <= count
    && (forall i | 0 <= i < |tiling| :: ProvedOn(windows, i, tiling[i]))
    && (forall i | |tiling| <= i < count :: ProvedOn(windows, i, Slice(range.end, range.end)))
  }

  /** Proved windows that reach the end are the tiling of the range, whatever their number. */
  lemma ProvedWindowsTile(range: Slice, count: nat, windows: map<int, Window>)
    requires range.start < range.end && WindowsValid(range, count, count, windows)
    requires Edge(range.start, range.end, count) == range.end
    ensures ProvedTiling(range, count, windows)
  {
    var tiling := Tiling(range.start, range.end);
    ReachesIff(range.start, range.end, count);
    TilingLength(range.start, range.end);
    forall i | 0 <= i < |tiling| ensures ProvedOn(windows, i, tiling[i]) {
      assert WindowValid(range, count, count, windows, i);
      TilingEdges(range.start, range.end, i);
    }
    forall i | |tiling| <= i < count ensures ProvedOn(windows, i, Slice(range.end, range.end)) {
      assert WindowValid(range, count, count, windows, i);
      assert Edge(range.start, range.end, i) == range.end == Edge(range.start, range.end, i + 1);
    }
  }

  /** The first n stored windows, in order. */
  function Stored(windows: map<int, Window>, n: nat): (r: seq<Window>)
    requires forall i | 0 <= i < n :: i in windows
    ensures |r| == n
  {
    if n == 0 then [] else Stored(windows, n - 1) + [windows[n - 1]]
  }

  lemma {:induction false} CountKeys(keys: set<int>, n: nat)
    requires forall i :: i in keys <==> 0 <= i < n
    ensures |keys| == n
  {
    if n == 0 {
      assert forall i :: i !in keys;
    } else {
      CountKeys(keys - {n - 1}, n - 1);
    }
  }

  class QuotaRun {
    const authorised: bool
    const start: int
    const end: int
    const windowCount: nat
    const expiresAt: int
    var state: RunState
    var next: int
    var notBefore: Option<int>
    var windows: map<int, Window>
    var marker: Option<Marker>
    ghost var log: seq<Entry>

    /** A run as its authorisation creates it. */
    constructor (authorised: bool, start: int, end: int, windowCount: nat, expiresAt: int)
      requires start < end
      ensures Valid() && log == [] && state.Authorized? && marker.None?
      ensures this.start == start && this.end == end && this.windowCount == windowCount
      ensures this.authorised == authorised && this.expiresAt == expiresAt
    {
      this.authorised := authorised;
      this.start := start;
      this.end := end;
      this.windowCount := windowCount;
      this.expiresAt := expiresAt;
      state := Authorized;
      next := 0;
      notBefore := None;
      windows := map[];
      marker := None;
      log := [];
    }

    function Range(): Slice {
      Slice(start, end)
    }

    ghost predicate Valid()
      reads this
    {
      && start < end
      && WindowsValid(Range(), windowCount, next, windows)
      && LogValid(log, next, notBefore)
      && (forall k | 0 <= k < |log| :: log[k].at < expiresAt)
      && state in {Authorized, Active, Completed, Failed}
      && (marker.Some? <==> state.Completed?)
      && (marker.Some? ==>
            && next == windowCount && Edge(start, end, windowCount) == end
            && marker.value.dateFrom == start && marker.value.freshUntil == end)
    }

    /** The gate in front of every advancement. */
    predicate Allows(now: int)
      reads this
    {
      && authorised && state in {Authorized, Active}
      && now < expiresAt && (notBefore.Some? ==> now >= notBefore.value)
    }

    /** The first window that is not completed, with its bounds. */
    method NextWindow() returns (index: Option<int>, from: int, to: int)
      requires Valid()
      ensures index == if next < windowCount then Some(next) else None
      ensures index.Some? ==> from == Edge(start, end, next) && to == Edge(start, end, next + 1)
    {
      from := start;
      for i := 0 to windowCount
        invariant i <= next && from == Edge(start, end, i)
      {
        assert WindowValid(Range(), windowCount, next, windows, i);
        to := Min(from + CHUNK, end);
        if i !in windows || !windows[i].state.WindowCompleted? {
          return Some(i), from, to;
        }
        from := to;
      }
      return None, from, from;
    }

    /** Every window is proved, and they reach the end of the range. */
    ghost predicate Covered()
      reads this
    {
      next == windowCount && Edge(start, end, windowCount) == end
    }

    /** The stored windows in order, if they are all there, proved, and cover the range. */
    method ContiguousWindows() returns (r: Option<seq<Window>>)
      requires Valid()
      ensures r.Some? <==> Covered()
      ensures r.Some? ==> r.value == Stored(windows, windowCount)
    {
      if next == windowCount {
        AllStored(Range(), windowCount, windows);
      }
      if |windows| != windowCount {
        return None;
      }
      var list: seq<Window>, expectedStart := [], start;
      for i := 0 to windowCount
        invariant i <= next && expectedStart == Edge(start, end, i) && list == Stored(windows, i)
      {
        assert WindowValid(Range(), windowCount, next, windows, i);
        var expectedEnd := Min(expectedStart + CHUNK, end);
        if i !in windows {
          return None;
        }
        var window := windows[i];
        if window.index != i || !window.state.WindowCompleted? || window.start != expectedStart
           || window.end != expectedEnd || !CompleteProof(window.proof)
        {
          return None;
        }
        list := list + [window];
        expectedStart := expectedEnd;
      }
      r := if expectedStart == end then Some(list) else None;
    }

    /** The final readback proves the range, from the claims it sees. */
    ghost predicate Proves(claims: Option<seq<Claim>>)
      requires forall i | 0 <= i < windowCount :: i in windows
      reads this
    {
      claims.Some? && Shows(Readback(start, end, Stored(windows, windowCount), claims.value))
    }

    /** Prove the whole range, and publish the marker or fail the run. */
    method Finalize(w: World) returns (r: Result<Outcome, Error>)
      requires Valid() && next == windowCount && state in {Authorized, Active}
      modifies this`state, this`marker
      ensures Valid()
      ensures r == if w.finalLost then Failure(Interrupted)
                   else Success(Outcome(0, if Covered() && Proves(w.claims) then 1 else 0))
      ensures w.finalLost ==> state == old(state) && marker == old(marker)
      ensures !w.finalLost ==> state == if Covered() && Proves(w.claims) then Completed else Failed
      ensures marker == if state.Completed? then Some(Marker(start, end, w.now + MARKER_VALIDITY)) else old(marker)
    {
      var list := ContiguousWindows();
      var proved := false;
      if list.Some? && w.claims.Some? {
        var proof := Readback(start, end, list.value, w.claims.value);
        proved := CompleteProof(proof) && proof.expected == Expected(list.value);
      }
      if w.finalLost {
        return Failure(Interrupted);
      }
      if proved {
        state := Finalizing;
        marker := Some(Marker(start, end, w.now + MARKER_VALIDITY));
        state := Completed;
      } else {
        state := Failed;
      }
      r := Success(Outcome(0, if proved then 1 else 0));
    }

    /** Whether an advancement's window completes, once the gates have let it through. */
    ghost predicate WindowProves(w: World) {
      !w.prepareLost && !w.finishLost && w.source.Proven? && Shows(w.source.proof)
    }

    /** Whether it proves too little, which fails the run for good. */
    ghost predicate WindowFails(w: World) {
      && !w.prepareLost && !w.finishLost && !w.source.PolicyWait?
      && (w.source.Proven? ==> !Shows(w.source.proof))
    }

    /** Everything a finished window leaves: its proof, the next index, the wait, the log. */
    ghost predicate CompletedWindow(proof: Proof, at: int, before: map<int, Window>, index: int, seen: seq<Entry>)
      reads this
    {
      && next == index + 1 && state.Active? && notBefore == Some(at + 600_000_000)
      && log == seen + [Entry(index, at)]
      && index in windows && windows[index].state.WindowCompleted? && windows[index].proof == proof
      && (forall i | i in before && i != index :: i in windows && windows[i] == before[i])
    }

    /** Prepare, read and settle one window. */
    method RunWindow(w: World) returns (r: Result<Outcome, Error>)
      requires Valid() && next < windowCount && state in {Authorized, Active}
      requires notBefore.Some? ==> w.now >= notBefore.value
      requires w.now < expiresAt
      modifies this
      ensures Valid() && marker == old(marker)
      ensures r.Success? && r.value == Outcome(1, 0) <==> WindowProves(w)
      ensures WindowProves(w) ==> CompletedWindow(w.source.proof, w.now, old(windows), old(next), old(log))
      ensures !WindowProves(w) ==> next == old(next) && log == old(log) && notBefore == old(notBefore)
      ensures WindowFails(w) ==> r == Success(Outcome(0, 0)) && state.Failed?
      ensures !WindowProves(w) && !WindowFails(w) ==> r == Failure(Interrupted) && state == old(state)
      ensures forall i | i != old(next) && i in old(windows) :: i in windows && windows[i] == old(windows[i])
      ensures w.prepareLost ==> windows == old(windows)
      ensures !w.prepareLost && !WindowProves(w) ==>
        old(next) in windows && windows[old(next)].state.WindowPrepared? && windows[old(next)].index == old(next)
    {
      var index, from, to := NextWindow();
      var i := index.value;
      if w.prepareLost {
        return Failure(Interrupted);
      }
      var window := Window(i, from, to, WindowPrepared, Proof(0, 0, 0, 0, false));
      PreparedIsValid(Range(), windowCount, next, windows, window);
      windows := windows[i := window];
      var raised := w.source.PolicyWait? || w.finishLost;
      if raised || !w.source.Proven? || !CompleteProof(w.source.proof) {
        if !raised {
          state := Failed;
        }
        return if raised then Failure(Interrupted) else Success(Outcome(0, 0));
      }
      window := window.(state := WindowCompleted, proof := w.source.proof);
      CompletedIsValid(Range(), windowCount, next, windows, window);
      LoggedIsValid(log, next, notBefore, w.now);
      windows := windows[i := window];
      state, next, notBefore := Active, i + 1, Some(w.now + NOT_BEFORE);
      log := log + [Entry(i, w.now)];
      r := Success(Outcome(1, 0));
    }

    /** At this instant the run is authorised, in progress, not expired and not waiting. */
    ghost predicate OpenAt(time: int)
      reads this
    {
      && authorised && (state == Authorized || state == Active)
      && time < expiresAt && (notBefore.Some? ==> notBefore.value <= time)
    }

    /** Whether an advancement reaches the source or the readback: open before and after it takes the lease. */
    ghost predicate Reaches(w: World)
      reads this
    {
      w.leased && OpenAt(w.clock) && OpenAt(w.now)
    }

    /** One advancement: at most one window, or the end of the run. */
    method Advance(w: World) returns (r: Result<Outcome, Error>)
      requires Valid()
      modifies this
      ensures Valid()
      // A window completes exactly when the gates, the writes and its proof allow it.
      ensures r == Success(Outcome(1, 0)) <==> old(next) < windowCount && old(Reaches(w)) && WindowProves(w)
      ensures if r == Success(Outcome(1, 0))
              then CompletedWindow(w.source.proof, w.now, old(windows), old(next), old(log))
              else next == old(next) && log == old(log) && notBefore == old(notBefore)
      // A marker appears exactly when all windows are proved and the readback confirms them.
      ensures r == Success(Outcome(0, 1)) <==>
        old(Reaches(w)) && !w.finalLost && old(Covered()) && old(Proves(w.claims))
      ensures marker == if r == Success(Outcome(0, 1)) then Some(Marker(start, end, w.now + 1_800_000_000))
        else old(marker)
      // Whenever there is a marker, the proved windows are the tiling of its range.
      ensures marker.Some? ==> ProvedTiling(Slice(marker.value.dateFrom, marker.value.freshUntil), windowCount, windows)
      // Nothing else counts as progress.
      ensures r == Success(Outcome(0, 0)) <==>
        || old(state) == Completed
        || (old(state) != Failed && (!old(OpenAt(w.clock)) || (w.leased && !old(OpenAt(w.now)))))
      // A run fails exactly for a proof that shows too little, of a window or of the whole range.
      ensures state == Failed <==>
        || old(state) == Failed
        || (old(Reaches(w)) && old(next) < windowCount && WindowFails(w))
        || (old(Reaches(w)) && old(next) == windowCount && !w.finalLost && !(old(Covered()) && old(Proves(w.claims))))
      ensures state == Failed ==> r.Failure?
      // Outside its gates, expired or not authorised, a run stays as it is, and so does a settled one.
      ensures !old(Reaches(w)) ==> state == old(state) && windows == old(windows)
    {
      if state !in {Authorized, Active, Completed} {
        return Failure(InvalidState);
      }
      if next == windowCount && Edge(start, end, windowCount) == end {
        ProvedWindowsTile(Range(), windowCount, windows);
      }
      if state.Completed? || !Allows(w.clock) {
        return Success(Outcome(0, 0));
      }
      if !w.leased {
        return Failure(Interrupted);
      }
      var outcome := Outcome(0, 0);
      if Allows(w.now) {
        if next >= windowCount {
          outcome :- Finalize(w);
        } else {
          outcome :- RunWindow(w);
        }
      }
      if state.Failed? {
        return Failure(RunFailed);
      }
      r := Success(outcome);
    }
  }

  /** Any two completions are as far apart as the waits between them. */
  lemma {:induction false} CompletionsSpaced(log: seq<Entry>, next: int, notBefore: Option<int>, i: nat, j: nat)
    requires LogValid(log, next, notBefore) && i <= j < |log|
    ensures log[j].at - log[i].at >= (j - i) * 600_000_000
    decreases j
  {
    if i < j {
      assert EntryValid(log, j);
      CompletionsSpaced(log, next, notBefore, i, j - 1);
    }
  }

  // ---------------------------------------------------------------------------
  // The final proof
  // ---------------------------------------------------------------------------

  /** The stored claims still count in the window what its proof counted. */
  ghost predicate StillCounts(claims: seq<Claim>, window: Window) {
    && window.proof.persisted == Persisted(claims, window.start, window.end)
    && window.proof.complete == Complete(claims, window.start, window.end)
  }

  lemma {:induction false} ProofsAddUp(range: Slice, count: nat, windows: map<int, Window>, claims: seq<Claim>, n: nat)
    requires WindowsValid(range, count, count, windows) && n <= count
    requires forall i | 0 <= i < n :: StillCounts(claims, windows[i])
    ensures Expected(Stored(windows, n)) == SumPersisted(claims, Windows(range.start, range.end, n))
         == SumComplete(claims, Windows(range.start, range.end, n))
  {
    if n > 0 {
      ProofsAddUp(range, count, windows, claims, n - 1);
      var w, stored := Windows(range.start, range.end, n), Stored(windows, n);
      assert w[..n - 1] == Windows(range.start, range.end, n - 1) && stored[..n - 1] == Stored(windows, n - 1);
      assert WindowValid(range, count, count, windows, n - 1) && StillCounts(claims, windows[n - 1]);
    }
  }

  /**
   The final proof follows from the window proofs: if no window's claims changed since its
   proof, the readback of the whole range is complete, with no further source call.
   */
  lemma WindowProofsSuffice(range: Slice, count: nat, windows: map<int, Window>, claims: seq<Claim>)
    requires range.start < range.end && WindowsValid(range, count, count, windows)
    requires Edge(range.start, range.end, count) == range.end
    requires forall i | 0 <= i < count :: StillCounts(claims, windows[i])
    ensures Shows(Readback(range.start, range.end, Stored(windows, count), claims))
  {
    ProofsAddUp(range, count, windows, claims, count);
    WindowCountsAdd(claims, range.start, range.end, count);
  }
}
