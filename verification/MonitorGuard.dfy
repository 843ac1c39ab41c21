/**
 The guard that watches the running pilot from snapshot to snapshot, in its additive mode:
 what one check demands, and what a whole chain of passing checks guarantees.
 Times are milliseconds.
 */
module MonitorGuard {
  import opened Prelude

  const LIMIT: int := 0x8000_0000_0000_0000
  const TICK: int := 10_000

  /** The five sources, by position: orders, questions, shipments, messages, claims. */
  const CAPS: seq<int> := [800, 150, 250, 300, 500]
  const QUESTIONS: nat := 1

  /** The error record of a source; empty text and no time mean that nothing is recorded. */
  datatype Signature = Signature(
    reason: string, blocked: string, failures: int, nextAttempt: Option<int>, failedUnits: int,
    errorType: string, errorSignature: string)
  {
    predicate Quiet() {
      this == Signature("", "", 0, None, 0, "", "")
    }

    predicate Cleared() {
      reason == "" && blocked == "" && errorType == "" && errorSignature == ""
    }
  }

  /** One source: its error record, its open issues, and its progress counters. */
  datatype Source = Source(signature: Signature, issues: seq<int>, progress: seq<int>, ready: bool)

  datatype Head = Head(pass: int, revision: int, page: int, discovered: int, fetched: int, published: int)

  /**
   What the guard reads. `steady` stands for the checks that compare this snapshot with
   constants or with the one before: scope, bindings, caps, leases, cursors, checkpoints.
   */
  datatype Snapshot = Snapshot(
    charged: int, sent: int, initial: int, maintenance: int,
    consumed: seq<int>, maintained: seq<int>,
    head: Head, completed: bool, claimsFailed: int, claimsCompleted: int,
    sources: seq<Source>, steady: bool)
  {
    /** The documents hold the five sources, each with the counters the guard reads. */
    predicate Shaped() {
      && |consumed| == |maintained| == |sources| == 5
      && forall i | 0 <= i < 5 :: |sources[i].issues| == 3 && |sources[i].progress| == 11
    }

    function Gap(): int {
      charged - sent
    }
  }

  type Shape = s: Snapshot | s.Shaped() witness Snapshot(
    0, 0, 0, 0, [0, 0, 0, 0, 0], [0, 0, 0, 0, 0], Head(0, 0, 0, 0, 0, 0), false, 0, 0,
    seq(5, i => Source(Signature("", "", 0, None, 0, "", ""), [0, 0, 0], seq(11, i => 0), false)), false)

  datatype Stop =
    | ClockStop | DebtClockInvalid | Drift | InvalidCounter | RefundOrCap | ChargedStop
    | DebtOriginDrift | DebtGrowth | DebtClockMissing | DebtTimeout | DebtTickLimit
    | LedgerMismatch | CheckpointRegression | FreshSourceFailure | SourceErrorChanged

  datatype Label = HistoricalPending | Improved | Observing

  /** A check that did not stop; `debtSince` is when the gap was first seen at four. */
  datatype Receipt = Receipt(labels: seq<Label>, debtSince: Option<int>)

  /** What stays fixed over a chain: the original snapshot, its window, and its episode. */
  datatype Origin = Origin(snapshot: Shape, received: int, deadline: int, episode90: bool)

  /** What the operator feeds back of the previous check. */
  datatype Feedback = Feedback(snapshot: Shape, at: int, debtSince: Option<int>)

  predicate Count(v: int) {
    0 <= v < LIMIT
  }

  function Sum(s: seq<int>): int {
    if s == [] then 0 else Sum(s[..|s| - 1]) + s[|s| - 1]
  }

  /** Counters that only grow, each within its cap. */
  predicate Grown(before: seq<int>, after: seq<int>) {
    |before| == |after| && forall i | 0 <= i < |after| :: before[i] <= after[i]
  }

  predicate Capped(counters: seq<int>, caps: seq<int>) {
    |counters| == |caps| && forall i | 0 <= i < |caps| :: 0 <= counters[i] <= caps[i]
  }

  function SourceCounters(o: Shape, p: Shape, c: Shape): Option<Stop> {
    if Grown(p.consumed, c.consumed) && Grown(o.consumed, c.consumed) && Capped(c.consumed, CAPS)
       && Grown(p.maintained, c.maintained) && Grown(o.maintained, c.maintained)
       && Capped(c.maintained, [300, 300, 300, 300, 300])
    then None
    else Some(RefundOrCap)
  }

  /** Spending: never less than before, never more charged than allowed, nor sent than charged. */
  function Spending(o: Shape, p: Shape, c: Shape): Option<Stop> {
    if !(Count(c.charged) && Count(c.sent) && Count(c.initial) && Count(c.maintenance)) then Some(InvalidCounter)
    else if !(Max(81, Max(o.charged, p.charged)) <= c.charged < 2500) then Some(ChargedStop)
    else if !(Max(79, Max(o.sent, p.sent)) <= c.sent <= c.charged) then Some(RefundOrCap)
    else None
  }

  /** The clock of the debt, once the gap is four. */
  function DebtClock(origin: Origin, p: Feedback, now: int): Result<int, Stop> {
    var since := if p.debtSince.Some? then p.debtSince.value else now;
    if p.debtSince.None? && p.snapshot.Gap() != 3 then Failure(DebtClockMissing)
    else if !(origin.received <= since <= now) then Failure(DebtClockInvalid)
    else if (if p.snapshot.Gap() == 4 then since > p.at else since < p.at) then Failure(DebtClockInvalid)
    else if now - since >= TICK then Failure(DebtTimeout)
    else if p.snapshot.Gap() == 4 && since != p.at then Failure(DebtTickLimit)
    else Success(since)
  }

  function Debt(origin: Origin, p: Feedback, c: Shape, now: int): Result<Option<int>, Stop> {
    if c.Gap() < 3 then Failure(DebtOriginDrift)
    else if c.Gap() > 4 then Failure(DebtGrowth)
    else if p.snapshot.Gap() !in {3, 4} then Failure(DebtOriginDrift)
    else if c.Gap() == 3 then Success(None)
    else
      var since :- DebtClock(origin, p, now);
      Success(Some(since))
  }

  function Ledger(o: Shape, p: Shape, c: Shape): Option<Stop> {
    if !(Max(57, Max(o.initial, p.initial)) <= c.initial <= 2000
         && Max(24, Max(o.maintenance, p.maintenance)) <= c.maintenance <= 500) then Some(RefundOrCap)
    else if !(c.charged == c.initial + c.maintenance
              && c.initial == Sum(c.consumed) && c.maintenance == Sum(c.maintained)) then Some(LedgerMismatch)
    else None
  }

  function Checkpoints(p: Head, c: Head): Option<Stop> {
    if Max(2, p.pass) <= c.pass && Max(4, p.revision) <= c.revision && Max(3, p.page) <= c.page
       && p.discovered <= c.discovered && p.fetched <= c.fetched && p.published <= c.published
       && c.published <= c.fetched <= c.discovered
    then None
    else Some(CheckpointRegression)
  }

  function Claims(o: Shape, p: Shape, c: Shape): Option<Stop> {
    if !(Max(o.claimsFailed, p.claimsFailed) <= c.claimsFailed
         && Max(o.claimsCompleted, p.claimsCompleted) <= c.claimsCompleted) then Some(CheckpointRegression)
    else if c.claimsFailed > p.claimsFailed then Some(FreshSourceFailure)
    else None
  }

  predicate Progressed(p: Source, c: Source)
    requires |p.progress| == |c.progress|
  {
    exists i | 0 <= i < |c.progress| :: c.progress[i] > p.progress[i]
  }

  predicate HeadProgressed(p: Head, c: Head) {
    c.discovered > p.discovered || c.fetched > p.fetched || c.published > p.published
  }

  predicate Advanced(p: Shape, c: Shape, i: nat)
    requires i < 5
  {
    || Progressed(p.sources[i], c.sources[i])
    || (i == QUESTIONS && (HeadProgressed(p.head, c.head) || c.completed))
    || (i != QUESTIONS && c.sources[i].ready && !p.sources[i].ready)
  }

  /** An error record may stay, or be cleared by progress; nothing may get worse. */
  function Judge(p: Shape, c: Shape, i: nat): Result<Label, Stop>
    requires i < 5
  {
    var before, after := p.sources[i].signature, c.sources[i].signature;
    var improved := after.Cleared() && Advanced(p, c, i);
    if after.nextAttempt.Some? && after.nextAttempt != before.nextAttempt then Failure(SourceErrorChanged)
    else if after.failures > before.failures || after.failedUnits > before.failedUnits
         || !Grown(c.sources[i].issues, p.sources[i].issues) then Failure(FreshSourceFailure)
    else if !(after == before || improved || (before.Quiet() && after.Quiet())) then Failure(SourceErrorChanged)
    else Success(
      if after == before && !after.Quiet() then HistoricalPending
      else if improved then Improved
      else Observing)
  }

  /** The labels of the first n sources, or the first reason to stop. */
  function JudgeAll(p: Shape, c: Shape, n: nat): (r: Result<seq<Label>, Stop>)
    requires n <= 5
    ensures r.Success? <==> forall i | 0 <= i < n :: Judge(p, c, i).Success?
    ensures r.Success? ==> |r.value| == n && forall i | 0 <= i < n :: Judge(p, c, i) == Success(r.value[i])
  {
    if n == 0 then Success([])
    else
      var labels :- JudgeAll(p, c, n - 1);
      var last :- Judge(p, c, n - 1);
      Success(labels + [last])
  }

  function FirstOf(a: Option<Stop>, b: Option<Stop>): Option<Stop> {
    if a.Some? then a else b
  }

  function Classify(origin: Origin, p: Feedback, c: Shape, now: int): Result<Receipt, Stop> {
    var o, before := origin.snapshot, p.snapshot;
    if !(origin.received <= now < origin.deadline) then Failure(ClockStop)
    else if !(origin.received <= p.at <= now) then Failure(DebtClockInvalid)
    else if !c.steady then Failure(Drift)
    else
      var spending := FirstOf(SourceCounters(o, before, c), Spending(o, before, c));
      if spending.Some? then Failure(spending.value)
      else
        var debtSince :- Debt(origin, p, c, now);
        var books := FirstOf(Ledger(o, before, c), Checkpoints(before.head, c.head));
        var claims := if origin.episode90 then Claims(o, before, c) else None;
        if FirstOf(books, claims).Some? then Failure(FirstOf(books, claims).value)
        else
          var labels :- JudgeAll(before, c, 5);
          Success(Receipt(labels, debtSince))
  }

  // ---------------------------------------------------------------------------
  // What passes
  // ---------------------------------------------------------------------------

  /** The original snapshot, the one before and this one, each in turn, went no further back. */
  ghost predicate Rises(a: int, b: int, c: int) {
    a <= c && b <= c
  }

  ghost predicate InTime(origin: Origin, at: int, now: int) {
    origin.received <= at <= now < origin.deadline
  }

  /** Spending only grew, over the original and the snapshot before, and from the known starting point. */
  ghost predicate SpendingRose(o: Shape, p: Shape, c: Shape) {
    && Rises(o.charged, p.charged, c.charged) && Rises(o.sent, p.sent, c.sent)
    && Rises(o.initial, p.initial, c.initial) && Rises(o.maintenance, p.maintenance, c.maintenance)
    && 81 <= c.charged && 79 <= c.sent && 57 <= c.initial && 24 <= c.maintenance
    && forall i | 0 <= i < 5 ::
         Rises(o.consumed[i], p.consumed[i], c.consumed[i]) && Rises(o.maintained[i], p.maintained[i], c.maintained[i])
  }

  /** The books balance and no limit is reached. */
  ghost predicate BooksHold(c: Shape) {
    && c.charged == c.initial + c.maintenance && c.charged < 2500 && c.initial <= 2000 && c.maintenance <= 500
    && c.sent <= c.charged
    && c.initial == c.consumed[0] + c.consumed[1] + c.consumed[2] + c.consumed[3] + c.consumed[4]
    && c.maintenance == c.maintained[0] + c.maintained[1] + c.maintained[2] + c.maintained[3] + c.maintained[4]
    && 0 <= c.consumed[0] <= 800 && 0 <= c.consumed[1] <= 150 && 0 <= c.consumed[2] <= 250
    && 0 <= c.consumed[3] <= 300 && 0 <= c.consumed[4] <= 500
    && forall i | 0 <= i < 5 :: 0 <= c.maintained[i] <= 300
  }

  /** The unsent attempts are the known three; or four, since less than ten seconds and at most one check ago. */
  ghost predicate DebtHolds(p: Feedback, c: Shape, now: int) {
    var before, gap := p.snapshot.charged - p.snapshot.sent, c.charged - c.sent;
    && (before == 3 || before == 4) && (gap == 3 || gap == 4)
    && (gap == 4 && before == 3 && p.debtSince.Some? ==> p.at <= p.debtSince.value <= now < p.debtSince.value + 10_000)
    && (gap == 4 && before == 4 ==> p.debtSince == Some(p.at) && now < p.at + 10_000)
  }

  ghost predicate HeadHolds(p: Head, c: Head) {
    && p.pass <= c.pass && p.revision <= c.revision && p.page <= c.page
    && 2 <= c.pass && 4 <= c.revision && 3 <= c.page
    && p.discovered <= c.discovered && p.fetched <= c.fetched && p.published <= c.published
    && c.published <= c.fetched && c.fetched <= c.discovered
  }

  ghost predicate ClaimsHold(o: Shape, p: Shape, c: Shape) {
    && c.claimsFailed == p.claimsFailed && o.claimsFailed <= c.claimsFailed
    && Rises(o.claimsCompleted, p.claimsCompleted, c.claimsCompleted)
  }

  /** Some progress counter of the source rose, or what it acquires became complete. */
  ghost predicate Moved(p: Shape, c: Shape, i: nat)
    requires i < 5
  {
    || (exists k | 0 <= k < 11 :: c.sources[i].progress[k] > p.sources[i].progress[k])
    || (i == 1 && (c.head.discovered > p.head.discovered || c.head.fetched > p.head.fetched
                   || c.head.published > p.head.published || c.completed))
    || (i != 1 && c.sources[i].ready && !p.sources[i].ready)
  }

  /** The error record is the same, or cleared by progress, or empty as before; and nothing got worse. */
  ghost predicate SourceHolds(p: Shape, c: Shape, i: nat)
    requires i < 5
  {
    var before, after := p.sources[i].signature, c.sources[i].signature;
    var cleared := after.reason == "" && after.blocked == "" && after.errorType == "" && after.errorSignature == "";
    var quiet := Signature("", "", 0, None, 0, "", "");
    && (after == before || (cleared && Moved(p, c, i)) || (before == quiet && after == quiet))
    && (after.nextAttempt == before.nextAttempt || after.nextAttempt == None)
    && after.failures <= before.failures && after.failedUnits <= before.failedUnits
    && forall k | 0 <= k < 3 :: c.sources[i].issues[k] <= p.sources[i].issues[k]
  }

  lemma SumOfFive(s: seq<int>)
    requires |s| == 5
    ensures Sum(s) == s[0] + s[1] + s[2] + s[3] + s[4]
  {
    assert s[..4][..3] == s[..3] && s[..3][..2] == s[..2] && s[..2][..1] == s[..1] && s[..1][..0] == [];
    assert Sum(s[..1]) == s[0] && Sum(s[..2]) == s[0] + s[1] && Sum(s[..3]) == s[0] + s[1] + s[2];
  }

  lemma JudgedIff(p: Shape, c: Shape, i: nat)
    requires i < 5
    ensures Judge(p, c, i).Success? <==> SourceHolds(p, c, i)
    ensures Judge(p, c, i).Success? ==>
      var quiet := Signature("", "", 0, None, 0, "", "");
      var same := c.sources[i].signature == p.sources[i].signature;
      Judge(p, c, i).value ==
        if same && c.sources[i].signature != quiet then HistoricalPending
        else if c.sources[i].signature.Cleared() && Moved(p, c, i) then Improved
        else Observing
  {
  }

  /** A check passes exactly when it is in time and steady and everything it compares holds. */
  lemma PassesIff(origin: Origin, p: Feedback, c: Shape, now: int)
    ensures Classify(origin, p, c, now).Success? <==>
      && InTime(origin, p.at, now) && c.steady
      && SpendingRose(origin.snapshot, p.snapshot, c) && BooksHold(c)
      && DebtHolds(p, c, now) && HeadHolds(p.snapshot.head, c.head)
      && (origin.episode90 ==> ClaimsHold(origin.snapshot, p.snapshot, c))
      && forall i | 0 <= i < 5 :: SourceHolds(p.snapshot, c, i)
  {
    SumOfFive(c.consumed);
    SumOfFive(c.maintained);
    forall i | 0 <= i < 5 ensures Judge(p.snapshot, c, i).Success? <==> SourceHolds(p.snapshot, c, i) {
      JudgedIff(p.snapshot, c, i);
    }
  }

  // ---------------------------------------------------------------------------
  // Chains of checks
  // ---------------------------------------------------------------------------

  datatype Check = Check(snapshot: Shape, now: int)

  /** The feedback after the checks, if none of them stopped. */
  function Chain(origin: Origin, start: Feedback, checks: seq<Check>): Option<Feedback> {
    if checks == [] then Some(start)
    else
      var before := Chain(origin, start, checks[..|checks| - 1]);
      var last := checks[|checks| - 1];
      if before.None? then None
      else match Classify(origin, before.value, last.snapshot, last.now)
        case Success(receipt) => Some(Feedback(last.snapshot, last.now, receipt.debtSince))
        case Failure(_) => None
  }

  /** No counter of spending or progress goes back, and no failure count goes up. */
  ghost predicate NoWorse(a: Shape, b: Shape, episode90: bool) {
    && a.charged <= b.charged && a.sent <= b.sent && a.initial <= b.initial && a.maintenance <= b.maintenance
    && Grown(a.consumed, b.consumed) && Grown(a.maintained, b.maintained)
    && a.head.pass <= b.head.pass && a.head.revision <= b.head.revision && a.head.page <= b.head.page
    && a.head.discovered <= b.head.discovered && a.head.fetched <= b.head.fetched
    && a.head.published <= b.head.published
    && (episode90 ==> a.claimsFailed == b.claimsFailed && a.claimsCompleted <= b.claimsCompleted)
    && forall i | 0 <= i < 5 :: SourceNoWorse(a.sources[i], b.sources[i])
  }

  ghost predicate SourceNoWorse(a: Source, b: Source) {
    && b.signature.failures <= a.signature.failures && b.signature.failedUnits <= a.signature.failedUnits
    && Grown(b.issues, a.issues)
    && (!b.signature.Cleared() ==> b.signature == a.signature)
  }

  /** The books of one snapshot balance, within the caps. */
  ghost predicate Balanced(s: Shape) {
    && s.charged == s.initial + s.maintenance
    && s.initial == Sum(s.consumed) && s.maintenance == Sum(s.maintained)
    && 81 <= s.charged < 2500 && 79 <= s.sent <= s.charged && s.initial <= 2000 && s.maintenance <= 500
    && Capped(s.consumed, CAPS)
    && s.Gap() in {3, 4}
  }

  lemma PassingIsNoWorse(origin: Origin, p: Feedback, c: Shape, now: int)
    requires Classify(origin, p, c, now).Success?
    ensures NoWorse(p.snapshot, c, origin.episode90) && Balanced(c)
  {
    forall i | 0 <= i < 5 ensures SourceNoWorse(p.snapshot.sources[i], c.sources[i]) {
      assert Judge(p.snapshot, c, i).Success?;
    }
  }

  lemma NoWorseTransitive(a: Shape, b: Shape, c: Shape, episode90: bool)
    requires NoWorse(a, b, episode90) && NoWorse(b, c, episode90)
    ensures NoWorse(a, c, episode90)
  {
    forall i | 0 <= i < 5 ensures SourceNoWorse(a.sources[i], c.sources[i]) {
      assert SourceNoWorse(a.sources[i], b.sources[i]) && SourceNoWorse(b.sources[i], c.sources[i]);
    }
  }

  lemma NoWorseThanItself(a: Shape, episode90: bool)
    ensures NoWorse(a, a, episode90)
  {
  }

  /**
   Over any chain of passing checks the spend only grows, the books balance after each one,
   failure counts never rise, and an error record is either the one at the start or cleared.
   */
  lemma {:induction false} ChainIsNoWorse(origin: Origin, start: Feedback, checks: seq<Check>, end: Feedback)
    requires Chain(origin, start, checks) == Some(end)
    ensures NoWorse(start.snapshot, end.snapshot, origin.episode90)
    ensures checks != [] ==> Balanced(end.snapshot)
  {
    if checks == [] {
      NoWorseThanItself(start.snapshot, origin.episode90);
    } else {
      var n := |checks| - 1;
      var mid := Chain(origin, start, checks[..n]).value;
      ChainIsNoWorse(origin, start, checks[..n], mid);
      PassingIsNoWorse(origin, mid, checks[n].snapshot, checks[n].now);
      NoWorseTransitive(start.snapshot, mid.snapshot, end.snapshot, origin.episode90);
    }
  }

  /** Check k of a chain passed, on the feedback of the ones before it. */
  lemma {:induction false} PassedInChain(origin: Origin, start: Feedback, checks: seq<Check>, k: nat)
    requires Chain(origin, start, checks).Some? && k < |checks|
    ensures Chain(origin, start, checks[..k]).Some? && Chain(origin, start, checks[..k + 1]).Some?
    ensures var p, c := Chain(origin, start, checks[..k]).value, checks[k];
      && Classify(origin, p, c.snapshot, c.now).Success?
      && Chain(origin, start, checks[..k + 1]) ==
           Some(Feedback(c.snapshot, c.now, Classify(origin, p, c.snapshot, c.now).value.debtSince))
  {
    if k < |checks| - 1 {
      assert checks[..|checks| - 1][..k] == checks[..k] && checks[..|checks| - 1][..k + 1] == checks[..k + 1];
      PassedInChain(origin, start, checks[..|checks| - 1], k);
    } else {
      assert checks[..k + 1] == checks;
    }
  }

  /** A second check at a gap of four dates the debt to the first, and follows it within a tick. */
  lemma DebtDatesBack(origin: Origin, p: Feedback, c: Shape, now: int)
    requires Classify(origin, p, c, now).Success? && p.snapshot.Gap() == 4 && c.Gap() == 4
    ensures p.debtSince == Some(p.at) == Classify(origin, p, c, now).value.debtSince
    ensures now - p.at < 10_000
  {
  }

  /**
   With a clock that moves, the debt stands at four for at most two checks in a row, and
   these are less than ten seconds apart.
   */
  lemma DebtLastsTwoChecks(origin: Origin, start: Feedback, checks: seq<Check>, k: nat)
    requires Chain(origin, start, checks).Some? && k + 1 < |checks|
    requires checks[k].snapshot.Gap() == 4 && checks[k + 1].snapshot.Gap() == 4
    ensures checks[k + 1].now - checks[k].now < 10_000
    ensures k + 2 < |checks| && checks[k].now < checks[k + 1].now ==> checks[k + 2].snapshot.Gap() == 3
  {
    PassedInChain(origin, start, checks, k);
    PassedInChain(origin, start, checks, k + 1);
    var first := Chain(origin, start, checks[..k + 1]).value;
    DebtDatesBack(origin, first, checks[k + 1].snapshot, checks[k + 1].now);
    if k + 2 < |checks| && checks[k + 2].snapshot.Gap() == 4 {
      PassedInChain(origin, start, checks, k + 2);
      var second := Chain(origin, start, checks[..k + 2]).value;
      DebtDatesBack(origin, second, checks[k + 2].snapshot, checks[k + 2].now);
    } else if k + 2 < |checks| {
      PassedInChain(origin, start, checks, k + 2);
      DebtIsDated(origin, Chain(origin, start, checks[..k + 2]).value, checks[k + 2].snapshot, checks[k + 2].now);
    }
  }

  /** The debt is dated while the gap is four: from when it was first seen, under ten seconds ago. */
  lemma DebtIsDated(origin: Origin, p: Feedback, c: Shape, now: int)
    requires Classify(origin, p, c, now).Success?
    ensures c.Gap() in {3, 4}
    ensures var since := Classify(origin, p, c, now).value.debtSince;
      && (since.Some? <==> c.Gap() == 4)
      && (since.Some? && p.snapshot.Gap() == 3 ==> p.at <= since.value <= now < since.value + 10_000)
      && (since.Some? && p.debtSince.None? ==> since.value == now && p.snapshot.Gap() == 3)
  {
  }
}
