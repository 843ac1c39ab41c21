/**
 The snapshot of the dead-letter queue: draw messages without acknowledging them, hand
 every one back by an explicit nack, close, and report honestly however the run ended.
 */
module SnapshotRuntime {
  import opened Prelude

  /** A drawn message; `readable` says that its body can be classified. */
  datatype Delivery = Delivery(tag: int, readable: bool)

  datatype Outcome = RequeueRequested | RequeueSendFailed | OutcomeUnknown | MessageNotObtained

  datatype Event = Got(delivery: Delivery) | Nacked(delivery: Delivery) | Closed

  // ---------------------------------------------------------------------------
  // Ascending tag order
  // ---------------------------------------------------------------------------

  predicate Ascending(s: seq<Delivery>) {
    forall i, j | 0 <= i < j < |s| :: s[i].tag <= s[j].tag
  }

  /** Put a delivery after those whose tag is no higher. */
  function Insert(d: Delivery, s: seq<Delivery>): (r: seq<Delivery>)
    ensures |r| == |s| + 1
  {
    if s == [] || s[|s| - 1].tag <= d.tag then s + [d]
    else Insert(d, s[..|s| - 1]) + [s[|s| - 1]]
  }

  lemma {:induction false} InsertKeeps(d: Delivery, s: seq<Delivery>)
    ensures multiset(Insert(d, s)) == multiset(s) + multiset{d}
  {
    if s != [] {
      assert s == s[..|s| - 1] + [s[|s| - 1]];
      InsertKeeps(d, s[..|s| - 1]);
    }
  }

  lemma {:induction false} InsertAscending(d: Delivery, s: seq<Delivery>)
    requires Ascending(s)
    ensures Ascending(Insert(d, s))
  {
    if s == [] || s[|s| - 1].tag <= d.tag {
    } else {
      var front := s[..|s| - 1];
      InsertAscending(d, front);
      InsertKeeps(d, front);
      var more := Insert(d, front);
      forall i | 0 <= i < |more| ensures more[i].tag <= s[|s| - 1].tag {
        assert more[i] in multiset(more);
      }
    }
  }

  /** A stable sort by tag. */
  function ByTag(s: seq<Delivery>): (r: seq<Delivery>)
    ensures |r| == |s|
  {
    if s == [] then [] else Insert(s[|s| - 1], ByTag(s[..|s| - 1]))
  }

  /** Sorting loses and adds nothing. */
  lemma {:induction false} ByTagKeeps(s: seq<Delivery>)
    ensures multiset(ByTag(s)) == multiset(s)
  {
    if s != [] {
      assert s == s[..|s| - 1] + [s[|s| - 1]];
      ByTagKeeps(s[..|s| - 1]);
      InsertKeeps(s[|s| - 1], ByTag(s[..|s| - 1]));
    }
  }

  lemma {:induction false} ByTagAscending(s: seq<Delivery>)
    ensures Ascending(ByTag(s))
  {
    if s != [] {
      ByTagAscending(s[..|s| - 1]);
      InsertAscending(s[|s| - 1], ByTag(s[..|s| - 1]));
    }
  }

  /** Sorting changes nothing exactly when the tags already ascend. */
  lemma {:induction false} ByTagFixesAscending(s: seq<Delivery>)
    ensures ByTag(s) == s <==> Ascending(s)
  {
    ByTagAscending(s);
    if s != [] && Ascending(s) {
      ByTagFixesAscending(s[..|s| - 1]);
    }
  }

  lemma SameElements(s: seq<Delivery>, d: Delivery)
    ensures d in ByTag(s) <==> d in s
  {
    ByTagKeeps(s);
    assert d in ByTag(s) <==> d in multiset(ByTag(s));
    assert d in s <==> d in multiset(s);
  }

  function Nacks(s: seq<Delivery>): seq<Event> {
    if s == [] then [] else Nacks(s[..|s| - 1]) + [Nacked(s[|s| - 1])]
  }

  lemma {:induction false} NacksAt(s: seq<Delivery>)
    ensures |Nacks(s)| == |s| && forall i | 0 <= i < |s| :: Nacks(s)[i] == Nacked(s[i])
  {
    if s != [] {
      NacksAt(s[..|s| - 1]);
    }
  }

  lemma NoCloseInNacks(s: seq<Delivery>)
    ensures Closed !in Nacks(s)
  {
    NacksAt(s);
  }

  function Gots(s: seq<Delivery>): seq<Event> {
    if s == [] then [] else Gots(s[..|s| - 1]) + [Got(s[|s| - 1])]
  }

  lemma {:induction false} NoCloseInGots(s: seq<Delivery>)
    ensures Closed !in Gots(s)
  {
    if s != [] {
      NoCloseInGots(s[..|s| - 1]);
    }
  }

  /** The deliveries that were nacked, in the order of the attempts. */
  function NackedIn(log: seq<Event>): seq<Delivery> {
    if log == [] then []
    else
      var last := log[|log| - 1];
      if last.Nacked? then NackedIn(log[..|log| - 1]) + [last.delivery] else NackedIn(log[..|log| - 1])
  }

  lemma {:induction false} NoNackInGots(s: seq<Delivery>)
    ensures NackedIn(Gots(s)) == []
  {
    if s != [] {
      NoNackInGots(s[..|s| - 1]);
      assert Gots(s)[..|Gots(s)| - 1] == Gots(s[..|s| - 1]);
    }
  }

  lemma NackedOnce(log: seq<Event>, d: Delivery)
    ensures NackedIn(log + [Nacked(d)]) == NackedIn(log) + [d]
  {
    assert (log + [Nacked(d)])[..|log|] == log;
  }

  lemma NacksTake(s: seq<Delivery>, i: nat)
    requires i < |s|
    ensures Nacks(s[..i + 1]) == Nacks(s[..i]) + [Nacked(s[i])]
  {
    assert s[..i + 1][..i] == s[..i];
  }

  lemma {:induction false} NackedAfter(log: seq<Event>, s: seq<Delivery>)
    ensures NackedIn(log + Nacks(s)) == NackedIn(log) + s
  {
    if s == [] {
      assert log + Nacks(s) == log;
    } else {
      var n := |s| - 1;
      var before := log + Nacks(s[..n]);
      NackedAfter(log, s[..n]);
      NackedOnce(before, s[n]);
      assert log + Nacks(s) == before + [Nacked(s[n])];
    }
  }

  lemma NackedInRun(obtained: seq<Delivery>, order: seq<Delivery>)
    ensures NackedIn(Gots(obtained) + Nacks(order) + [Closed]) == order
  {
    var before := Gots(obtained) + Nacks(order);
    assert (before + [Closed])[..|before|] == before;
    NoNackInGots(obtained);
    NackedAfter(Gots(obtained), order);
  }

  // ---------------------------------------------------------------------------
  // The broker
  // ---------------------------------------------------------------------------

  /**
   What goes wrong: by draw for `getRaises` and `getCancelled`, by nack attempt for the
   others. `nackCancelled` is a cancellation that reaches a nack outside the shield.
   */
  datatype Faults = Faults(
    getRaises: set<nat>, getCancelled: set<nat>,
    sendFails: set<nat>, nackRaises: set<nat>, nackCancelled: Option<nat>, close: bool)
  {
    function Attempt(n: nat): Outcome {
      if n in sendFails then RequeueSendFailed
      else if n in nackRaises then OutcomeUnknown
      else RequeueRequested
    }
  }

  datatype Draw = Drawn(delivery: Delivery) | Empty | DrawRaised | DrawCancelled

  class Broker {
    const faults: Faults
    var ready: seq<Delivery>
    var attempts: nat
    ghost var log: seq<Event>

    constructor (ready: seq<Delivery>, faults: Faults)
      ensures this.ready == ready && this.faults == faults && attempts == 0 && log == []
    {
      this.ready := ready;
      this.faults := faults;
      this.attempts := 0;
      this.log := [];
    }

    method GetOne(position: nat) returns (r: Draw)
      modifies this`ready, this`log
      ensures r.Drawn? ==> old(ready) == [r.delivery] + ready && log == old(log) + [Got(r.delivery)]
      ensures !r.Drawn? ==> ready == old(ready) && log == old(log)
      ensures r.Empty? ==> ready == []
      ensures r.DrawCancelled? <==> position in faults.getCancelled
      ensures r.DrawRaised? <==> position !in faults.getCancelled && position in faults.getRaises
    {
      if position in faults.getCancelled {
        return DrawCancelled;
      }
      if position in faults.getRaises {
        return DrawRaised;
      }
      if ready == [] {
        return Empty;
      }
      r := Drawn(ready[0]);
      log := log + [Got(ready[0])];
      ready := ready[1..];
    }

    /** One nack with requeue; nothing is returned when a cancellation reaches it. */
    method AttemptNack(d: Delivery, shielded: bool) returns (r: Option<Outcome>)
      modifies this`attempts, this`log
      ensures attempts == old(attempts) + 1 && log == old(log) + [Nacked(d)]
      ensures r == if !shielded && faults.nackCancelled == Some(old(attempts)) then None
                   else Some(faults.Attempt(old(attempts)))
    {
      var n := attempts;
      attempts := attempts + 1;
      log := log + [Nacked(d)];
      r := if !shielded && faults.nackCancelled == Some(n) then None else Some(faults.Attempt(n));
    }

    method SafeClose() returns (failed: bool)
      modifies this`log
      ensures log == old(log) + [Closed] && failed == faults.close
    {
      log := log + [Closed];
      failed := faults.close;
    }
  }

  /** The outcomes of consecutive attempts. */
  ghost function Outcomes(faults: Faults, from: nat, n: nat): (r: seq<Outcome>)
    ensures |r| == n
  {
    if n == 0 then [] else Outcomes(faults, from, n - 1) + [faults.Attempt(from + n - 1)]
  }

  lemma {:induction false} OutcomeAt(faults: Faults, from: nat, n: nat, i: nat)
    requires i < n
    ensures Outcomes(faults, from, n)[i] == faults.Attempt(from + i)
  {
    if i < n - 1 {
      OutcomeAt(faults, from, n - 1, i);
    }
  }

  /** What an attempt comes to: a failed send is known as such, and anything else that raises is unknown. */
  lemma AttemptIff(faults: Faults, n: nat)
    ensures faults.Attempt(n) == RequeueSendFailed <==> n in faults.sendFails
    ensures faults.Attempt(n) == OutcomeUnknown <==> n in faults.nackRaises && n !in faults.sendFails
    ensures faults.Attempt(n) == RequeueRequested <==> n !in faults.sendFails && n !in faults.nackRaises
  {
  }

  /** The cancellation reaches one of the n attempts from the given one. */
  ghost predicate CancelledWithin(faults: Faults, from: nat, n: nat) {
    faults.nackCancelled.Some? && from <= faults.nackCancelled.value < from + n
  }

  /** How many attempts are made for n deliveries: a cancellation outside the shield ends them early. */
  ghost function AttemptsMade(faults: Faults, from: nat, n: nat, shielded: bool): (r: nat)
    ensures r <= n
  {
    if !shielded && CancelledWithin(faults, from, n) then faults.nackCancelled.value + 1 - from else n
  }

  /** One attempt per delivery, in ascending tag order, going on after failures. */
  method UniversalNack(broker: Broker, obtained: seq<Delivery>, shielded: bool)
    returns (outcomes: seq<Outcome>, cancelled: bool)
    modifies broker`attempts, broker`log
    ensures cancelled <==> !shielded && CancelledWithin(broker.faults, old(broker.attempts), |obtained|)
    ensures !cancelled ==> outcomes == Outcomes(broker.faults, old(broker.attempts), |obtained|)
    ensures var n := AttemptsMade(broker.faults, old(broker.attempts), |obtained|, shielded);
      broker.attempts == old(broker.attempts) + n && broker.log == old(broker.log) + Nacks(ByTag(obtained)[..n])
  {
    outcomes := [];
    var order := ByTag(obtained);
    for i := 0 to |order|
      invariant broker.log == old(broker.log) + Nacks(order[..i])
      invariant outcomes == Outcomes(broker.faults, old(broker.attempts), i)
      invariant broker.attempts == old(broker.attempts) + i
      invariant shielded || !CancelledWithin(broker.faults, old(broker.attempts), i)
    {
      NacksTake(order, i);
      var outcome := broker.AttemptNack(order[i], shielded);
      if outcome.None? {
        return outcomes, true;
      }
      outcomes := outcomes + [outcome.value];
    }
    cancelled := false;
  }

  // ---------------------------------------------------------------------------
  // The report
  // ---------------------------------------------------------------------------

  datatype Lock = LockTaken | Contended | LockRaises

  datatype Preflight = Passes | Refuses | PreflightRaises | PreflightCancelled

  datatype Execution = Completed | MessageError | Cancelled | PreflightError | CloseError

  function ExitCode(e: Execution): nat {
    match e
    case Completed => 0
    case PreflightError => 5
    case CloseError => 7
    case _ => 6
  }

  /** One line of the report: the outcome of a nack beside the verdict on a message. */
  datatype Line = Line(sequence: nat, outcome: Outcome, verdict: Option<Delivery>)

  datatype Report = Report(execution: Execution, preflight: bool, closed: bool, lines: seq<Line>, errorCode: nat)

  /** The verdict at a position; one past the last there is an empty one. */
  function VerdictAt(verdicts: seq<Option<Delivery>>, i: nat): Option<Delivery>
    requires i <= |verdicts|
  {
    if i < |verdicts| then verdicts[i] else None
  }

  function Lines(results: seq<Outcome>, verdicts: seq<Option<Delivery>>): (r: seq<Line>)
    requires |results| <= |verdicts| + 1
    ensures |r| == |results|
  {
    if results == [] then []
    else
      var n := |results| - 1;
      Lines(results[..n], verdicts) + [Line(n + 1, results[n], VerdictAt(verdicts, n))]
  }

  /** Each result has its own line, beside the verdict at its position or the empty one. */
  lemma {:induction false} LineAt(results: seq<Outcome>, verdicts: seq<Option<Delivery>>, i: nat)
    requires i < |results| <= |verdicts| + 1
    ensures Lines(results, verdicts)[i] == Line(i + 1, results[i], VerdictAt(verdicts, i))
  {
    if i < |results| - 1 {
      LineAt(results[..|results| - 1], verdicts, i);
    }
  }

  function BuildReport(
    preflight: bool, closeFailed: bool, results: seq<Outcome>, verdicts: seq<Option<Delivery>>,
    outcome: Execution): Report
    requires |results| <= |verdicts| + 1
  {
    Report(outcome, preflight, !closeFailed, Lines(results, verdicts), ExitCode(outcome))
  }

  predicate Bad(o: Outcome) {
    o.RequeueSendFailed? || o.OutcomeUnknown?
  }

  function ExecutionOutcome(results: seq<Outcome>, closeFailed: bool): Execution {
    if closeFailed then CloseError
    else if exists i | 0 <= i < |results| :: Bad(results[i]) then MessageError
    else Completed
  }

  // ---------------------------------------------------------------------------
  // Drawing
  // ---------------------------------------------------------------------------

  /** How the drawing ended, or that it never began. */
  datatype End = Enough | QueueEmpty | Broken | Interrupted | Refused

  /**
   How many messages are drawn from a queue, starting with the given one, and how the
   drawing ends. A run that classifies what it draws breaks off after an unreadable message.
   */
  ghost function Drawing(queue: seq<Delivery>, limit: nat, faults: Faults, classifying: bool, i: nat): (r: (nat, End))
    requires i <= |queue|
    ensures i <= r.0 <= |queue| && !r.1.Refused?
    decreases limit - i
  {
    if i >= limit then (i, Enough)
    else if i in faults.getCancelled then (i, Interrupted)
    else if i in faults.getRaises then (i, Broken)
    else if i == |queue| then (i, QueueEmpty)
    else if classifying && !queue[i].readable then (i + 1, Broken)
    else Drawing(queue, limit, faults, classifying, i + 1)
  }

  ghost predicate Settled(end: End) {
    end.Enough? || end.QueueEmpty?
  }

  ghost predicate Answered(faults: Faults, i: nat) {
    i !in faults.getCancelled && i !in faults.getRaises
  }

  /** No draw goes wrong, the last one that finds the queue empty included, and no message breaks it off. */
  ghost predicate Undisturbed(queue: seq<Delivery>, limit: nat, faults: Faults, classifying: bool, from: nat) {
    && (forall i: nat | from <= i < limit && i <= |queue| :: Answered(faults, i))
    && (forall i: nat | from <= i < limit && i < |queue| :: classifying ==> queue[i].readable)
  }

  /** The drawing settles exactly when it is undisturbed, and then it goes to the limit or the queue's end. */
  lemma {:induction false} SettlesIff(queue: seq<Delivery>, limit: nat, faults: Faults, classifying: bool, i: nat)
    requires i <= |queue|
    ensures var (n, end) := Drawing(queue, limit, faults, classifying, i);
      && (Settled(end) <==> Undisturbed(queue, limit, faults, classifying, i))
      && (Settled(end) ==> n == Max(i, Min(limit, |queue|)) && (end.Enough? <==> limit <= n))
    decreases limit - i
  {
    if i < limit && Answered(faults, i) && i < |queue| && (classifying ==> queue[i].readable) {
      SettlesIff(queue, limit, faults, classifying, i + 1);
    }
  }

  lemma OneMoreDrawn(queue: seq<Delivery>, i: nat)
    requires i < |queue|
    ensures queue[..i + 1] == queue[..i] + [queue[i]] && queue[i..] == [queue[i]] + queue[i + 1..]
    ensures Gots(queue[..i + 1]) == Gots(queue[..i]) + [Got(queue[i])]
  {
    assert queue[..i + 1][..i] == queue[..i];
  }

  /** The verdict on a message is missing if it cannot be classified. */
  ghost function VerdictOn(d: Delivery): Option<Delivery> {
    if d.readable then Some(d) else None
  }

  /** A verdict for every message but an unreadable last one. */
  ghost predicate Classified(obtained: seq<Delivery>, verdicts: seq<Option<Delivery>>) {
    && |verdicts| <= |obtained| <= |verdicts| + 1
    && (forall i | 0 <= i < |verdicts| :: verdicts[i] == VerdictOn(obtained[i]))
    && (|obtained| > |verdicts| ==> !obtained[|verdicts|].readable)
  }

  lemma OneMoreClassified(obtained: seq<Delivery>, verdicts: seq<Option<Delivery>>, d: Delivery)
    requires Classified(obtained, verdicts) && |verdicts| == |obtained|
    ensures Classified(obtained + [d], if d.readable then verdicts + [Some(d)] else verdicts)
  {
  }

  /** Draw up to the limit, classifying as they come; a message that cannot be classified ends it. */
  method DrawAll(broker: Broker, limit: nat)
    returns (obtained: seq<Delivery>, verdicts: seq<Option<Delivery>>, end: End)
    modifies broker`ready, broker`log
    ensures (|obtained|, end) == Drawing(old(broker.ready), limit, broker.faults, true, 0)
    ensures old(broker.ready) == obtained + broker.ready && broker.log == old(broker.log) + Gots(obtained)
    ensures Classified(obtained, verdicts) && (|obtained| > |verdicts| ==> end.Broken?)
  {
    ghost var queue := broker.ready;
    obtained, verdicts := [], [];
    for i := 0 to limit
      invariant i <= |queue| && obtained == queue[..i] && broker.ready == queue[i..]
      invariant broker.log == old(broker.log) + Gots(obtained)
      invariant |verdicts| == i && Classified(obtained, verdicts)
      invariant Drawing(queue, limit, broker.faults, true, i) == Drawing(queue, limit, broker.faults, true, 0)
    {
      var draw := broker.GetOne(i);
      match draw {
        case Empty => return obtained, verdicts, QueueEmpty;
        case DrawRaised => return obtained, verdicts, Broken;
        case DrawCancelled => return obtained, verdicts, Interrupted;
        case Drawn(d) =>
          OneMoreDrawn(queue, i);
          OneMoreClassified(obtained, verdicts, d);
          obtained := obtained + [d];
          if !d.readable {
            return obtained, verdicts, Broken;
          }
          verdicts := verdicts + [Some(d)];
      }
    }
    end := Enough;
  }

  // ---------------------------------------------------------------------------
  // Handing back
  // ---------------------------------------------------------------------------

  /** Each of the deliveries was nacked before the close that ends the log. */
  ghost predicate HandedBack(obtained: seq<Delivery>, log: seq<Event>) {
    && log != [] && log[|log| - 1] == Closed
    && forall d | d in obtained :: Nacked(d) in log[..|log| - 1]
  }

  lemma NackedAll(obtained: seq<Delivery>, before: seq<Event>)
    ensures HandedBack(obtained, before + Nacks(ByTag(obtained)) + [Closed])
  {
    var order := ByTag(obtained);
    var log := before + Nacks(order) + [Closed];
    NacksAt(order);
    forall d | d in obtained ensures Nacked(d) in log[..|log| - 1] {
      SameElements(obtained, d);
      var i :| 0 <= i < |order| && order[i] == d;
      assert log[|before| + i] == Nacked(d);
    }
  }

  /** Every one of the first n nack attempts was requested cleanly. */
  ghost predicate CleanNacks(faults: Faults, n: nat) {
    forall i | 0 <= i < n :: !Bad(faults.Attempt(i))
  }

  /** Nack everything and close, unless a cancellation comes in between. */
  method HandBack(broker: Broker, obtained: seq<Delivery>, shielded: bool)
    returns (results: seq<Outcome>, cancelled: bool, closeFailed: bool)
    modifies broker`attempts, broker`log
    ensures cancelled <==> !shielded && CancelledWithin(broker.faults, old(broker.attempts), |obtained|)
    ensures var n := AttemptsMade(broker.faults, old(broker.attempts), |obtained|, shielded);
      && broker.attempts == old(broker.attempts) + n
      && (cancelled ==> broker.log == old(broker.log) + Nacks(ByTag(obtained)[..n]))
    ensures !cancelled ==>
      && broker.log == old(broker.log) + Nacks(ByTag(obtained)) + [Closed]
      && results == Outcomes(broker.faults, old(broker.attempts), |obtained|)
      && closeFailed == broker.faults.close
  {
    results, cancelled := UniversalNack(broker, obtained, shielded);
    closeFailed := false;
    if !cancelled {
      assert ByTag(obtained)[..|obtained|] == ByTag(obtained);
      closeFailed := broker.SafeClose();
    }
  }

  /** The line a report ends with beyond those of the messages. */
  ghost function Extra(end: End, n: nat): Option<Outcome> {
    match end
    case Broken => Some(OutcomeUnknown)
    case QueueEmpty => if n == 0 then Some(MessageNotObtained) else None
    case _ => None
  }

  /** Line i gives the outcome of the i-th attempt from a given one and the verdict on the i-th message drawn. */
  ghost predicate ReportedAt(lines: seq<Line>, faults: Faults, from: nat, obtained: seq<Delivery>, i: nat) {
    && i < |lines| && i < |obtained|
    && lines[i] == Line(i + 1, faults.Attempt(from + i), VerdictOn(obtained[i]))
  }

  /** A line for every message drawn, and the extra one. */
  ghost predicate Reports(
    lines: seq<Line>, faults: Faults, from: nat, obtained: seq<Delivery>, extra: Option<Outcome>)
  {
    && |lines| == |obtained| + (if extra.Some? then 1 else 0)
    && (forall i | 0 <= i < |obtained| :: ReportedAt(lines, faults, from, obtained, i))
    && (extra.Some? ==> lines[|obtained|] == Line(|obtained| + 1, extra.value, None))
  }

  /** Verdicts that put each message's own on its line, and none on the extra line. */
  ghost predicate Fits(obtained: seq<Delivery>, verdicts: seq<Option<Delivery>>, extra: Option<Outcome>) {
    && |obtained| <= |verdicts| + (if extra.Some? then 0 else 1)
    && (forall i | 0 <= i < |obtained| :: VerdictAt(verdicts, i) == VerdictOn(obtained[i]))
    && (extra.Some? ==> VerdictAt(verdicts, |obtained|) == None)
  }

  ghost function Results(faults: Faults, from: nat, n: nat, extra: Option<Outcome>): (r: seq<Outcome>)
    ensures |r| == n + if extra.Some? then 1 else 0
  {
    Outcomes(faults, from, n) + if extra.Some? then [extra.value] else []
  }

  lemma ReportedLines(
    faults: Faults, from: nat, obtained: seq<Delivery>, verdicts: seq<Option<Delivery>>, extra: Option<Outcome>)
    requires Fits(obtained, verdicts, extra)
    ensures Reports(Lines(Results(faults, from, |obtained|, extra), verdicts), faults, from, obtained, extra)
  {
    var results := Results(faults, from, |obtained|, extra);
    var lines := Lines(results, verdicts);
    forall i | 0 <= i < |obtained| ensures ReportedAt(lines, faults, from, obtained, i) {
      OutcomeAt(faults, from, |obtained|, i);
      LineAt(results, verdicts, i);
    }
    if extra.Some? {
      LineAt(results, verdicts, |obtained|);
    }
  }

  /** What a report says of the run as a whole; a failed close overrides the rest. */
  ghost predicate Says(report: Report, faults: Faults, preflight: bool, execution: Execution) {
    && report.execution == (if faults.close then CloseError else execution)
    && report.errorCode == ExitCode(report.execution)
    && report.closed == !faults.close && report.preflight == preflight
  }

  /** The cancellation meets the nacks of a run outside the shield. */
  ghost predicate CutShort(faults: Faults, end: End, n: nat) {
    (Settled(end) || end.Broken?) && CancelledWithin(faults, 0, n)
  }

  /** The first nacks of a run that is cut short; it starts again behind the shield, or leaves. */
  ghost function CutNacks(faults: Faults, end: End, order: seq<Delivery>): seq<Delivery> {
    if CutShort(faults, end, |order|) then order[..faults.nackCancelled.value + 1] else []
  }

  ghost function Judged(faults: Faults, end: End, n: nat): Execution {
    match end
    case Refused => PreflightError
    case Interrupted => Cancelled
    case Broken => MessageError
    case _ =>
      if CutShort(faults, end, n) then Cancelled else if CleanNacks(faults, n) then Completed else MessageError
  }

  /** All that a run does to the broker, and all that it reports. */
  ghost predicate Ran(
    report: Option<Report>, log: seq<Event>, faults: Faults, preflight: bool, obtained: seq<Delivery>, end: End)
  {
    var order := ByTag(obtained);
    var first := CutNacks(faults, end, order);
    && (report.None? <==> end.Broken? && CutShort(faults, end, |obtained|))
    && log == Gots(obtained) + Nacks(first) + (if report.None? then [] else Nacks(order) + [Closed])
    && (report.Some? ==>
          && Reports(report.value.lines, faults, |first|, obtained, Extra(end, |obtained|))
          && Says(report.value, faults, preflight, Judged(faults, end, |obtained|)))
  }

  /** A failure: nack everything, unless cancelled meanwhile, and close. */
  method ReportFailure(broker: Broker, preflight: bool, obtained: seq<Delivery>, verdicts: seq<Option<Delivery>>)
    returns (report: Option<Report>)
    requires Classified(obtained, verdicts) && broker.attempts == 0 && broker.log == Gots(obtained)
    modifies broker`attempts, broker`log
    ensures Ran(report, broker.log, broker.faults, preflight, obtained, Broken)
  {
    var results, cancelled, closeFailed := HandBack(broker, obtained, false);
    if cancelled {
      return None;
    }
    var blanked := verdicts + [None];
    ReportedLines(broker.faults, 0, obtained, blanked, Some(OutcomeUnknown));
    var outcome := if closeFailed then CloseError else MessageError;
    report := Some(BuildReport(preflight, closeFailed, results + [OutcomeUnknown], blanked, outcome));
  }

  /** A cancellation: nack everything behind the shield, and close. */
  method ReportCancelled(broker: Broker, preflight: bool, obtained: seq<Delivery>, verdicts: seq<Option<Delivery>>)
    returns (report: Report)
    requires Classified(obtained, verdicts) && |verdicts| == |obtained|
    modifies broker`attempts, broker`log
    ensures broker.log == old(broker.log) + Nacks(ByTag(obtained)) + [Closed]
    ensures Reports(report.lines, broker.faults, old(broker.attempts), obtained, None)
    ensures Says(report, broker.faults, preflight, Cancelled)
  {
    ghost var from := broker.attempts;
    var results, cancelled, closeFailed := HandBack(broker, obtained, true);
    ReportedLines(broker.faults, from, obtained, verdicts, None);
    assert results == Results(broker.faults, from, |obtained|, None);
    var outcome := if closeFailed then CloseError else Cancelled;
    report := BuildReport(preflight, closeFailed, results, verdicts, outcome);
  }

  method ReportRefusal(broker: Broker) returns (report: Report)
    modifies broker`log
    ensures broker.log == old(broker.log) + [Closed]
    ensures report.lines == [] && Says(report, broker.faults, false, PreflightError)
  {
    var closeFailed := broker.SafeClose();
    report := BuildReport(false, closeFailed, [], [], if closeFailed then CloseError else PreflightError);
  }

  lemma CompletedIffClean(faults: Faults, n: nat, extra: Option<Outcome>)
    requires extra.Some? ==> !Bad(extra.value)
    ensures ExecutionOutcome(Results(faults, 0, n, extra), false).Completed? <==> CleanNacks(faults, n)
  {
    var results := Results(faults, 0, n, extra);
    forall i | 0 <= i < n ensures results[i] == faults.Attempt(i) {
      OutcomeAt(faults, 0, n, i);
    }
    if !CleanNacks(faults, n) {
      var i :| 0 <= i < n && Bad(faults.Attempt(i));
      assert Bad(results[i]);
    }
  }

  /** The drawn messages are nacked and the broker closed, in an orderly end or a cancelled one. */
  method NackAndClose(
    broker: Broker, obtained: seq<Delivery>, verdicts: seq<Option<Delivery>>, empty: bool, ghost end: End)
    returns (report: Option<Report>)
    requires Classified(obtained, verdicts) && |verdicts| == |obtained|
    requires Settled(end) && (empty <==> end.QueueEmpty? && obtained == [])
    requires broker.attempts == 0 && broker.log == Gots(obtained)
    modifies broker`attempts, broker`log
    ensures Ran(report, broker.log, broker.faults, true, obtained, end)
  {
    var results, cancelled, closeFailed := HandBack(broker, obtained, false);
    if cancelled {
      var shielded := ReportCancelled(broker, true, obtained, verdicts);
      return Some(shielded);
    }
    if empty {
      results := results + [MessageNotObtained];
    }
    assert results == Results(broker.faults, 0, |obtained|, Extra(end, |obtained|));
    report := Some(BuildReport(true, closeFailed, results, verdicts, ExecutionOutcome(results, closeFailed)));
    RanSettled(report.value, broker.log, broker.faults, obtained, verdicts, end);
  }

  lemma RanSettled(
    report: Report, log: seq<Event>, faults: Faults, obtained: seq<Delivery>, verdicts: seq<Option<Delivery>>, end: End)
    requires Settled(end) && !CancelledWithin(faults, 0, |obtained|)
    requires Classified(obtained, verdicts) && |verdicts| == |obtained|
    requires log == Gots(obtained) + Nacks(ByTag(obtained)) + [Closed]
    requires var results := Results(faults, 0, |obtained|, Extra(end, |obtained|));
      report == BuildReport(true, faults.close, results, verdicts, ExecutionOutcome(results, faults.close))
    ensures Ran(Some(report), log, faults, true, obtained, end)
  {
    var extra := Extra(end, |obtained|);
    ReportedLines(faults, 0, obtained, verdicts, extra);
    CompletedIffClean(faults, |obtained|, extra);
    assert Gots(obtained) + Nacks([]) == Gots(obtained);
    assert CutNacks(faults, end, ByTag(obtained)) == [];
  }

  // ---------------------------------------------------------------------------
  // The run
  // ---------------------------------------------------------------------------

  /** How many messages a run draws and how that ends, from what it meets. */
  ghost function Course(queue: seq<Delivery>, lock: Lock, preflight: Preflight, limit: nat, faults: Faults)
    : (r: (nat, End))
    ensures r.0 <= |queue|
  {
    match (lock, preflight)
    case (Contended, _) => (0, Refused)
    case (LockRaises, _) => (0, Broken)
    case (LockTaken, Refuses) => (0, Refused)
    case (LockTaken, PreflightRaises) => (0, Broken)
    case (LockTaken, PreflightCancelled) => (0, Interrupted)
    case (LockTaken, Passes) => Drawing(queue, limit, faults, true, 0)
  }

  ghost predicate Starts(lock: Lock, preflight: Preflight) {
    lock.LockTaken? && preflight.Passes?
  }

  /** Nothing raises and nothing is cancelled, from the lock to the last nack. */
  ghost predicate Orderly(queue: seq<Delivery>, lock: Lock, preflight: Preflight, limit: nat, faults: Faults) {
    && Starts(lock, preflight)
    && Undisturbed(queue, limit, faults, true, 0)
    && !CancelledWithin(faults, 0, Min(limit, |queue|))
  }

  /** An orderly run whose nacks are all requested cleanly and whose close succeeds. */
  ghost predicate Clean(queue: seq<Delivery>, lock: Lock, preflight: Preflight, limit: nat, faults: Faults) {
    && Orderly(queue, lock, preflight, limit, faults)
    && CleanNacks(faults, Min(limit, |queue|))
    && !faults.close
  }

  /** The log and the lines of an orderly run. */
  ghost predicate ReportsRun(lines: seq<Line>, log: seq<Event>, faults: Faults, obtained: seq<Delivery>) {
    && log == Gots(obtained) + Nacks(ByTag(obtained)) + [Closed]
    && (forall i | 0 <= i < |obtained| :: obtained[i].readable && ReportedAt(lines, faults, 0, obtained, i))
  }

  lemma NothingClosed(obtained: seq<Delivery>, nacked: seq<Delivery>)
    ensures Closed !in Gots(obtained) + Nacks(nacked)
  {
    NoCloseInGots(obtained);
    NoCloseInNacks(nacked);
  }

  /** Where every drawn message is nacked before the close, and where nothing is closed. */
  lemma RanHandsBack(
    report: Option<Report>, log: seq<Event>, faults: Faults, preflight: bool, obtained: seq<Delivery>, end: End)
    requires Ran(report, log, faults, preflight, obtained, end)
    ensures if report.None? then Closed !in log else HandedBack(obtained, log)
  {
    var first := CutNacks(faults, end, ByTag(obtained));
    if report.None? {
      NothingClosed(obtained, first);
    } else {
      NackedAll(obtained, Gots(obtained) + Nacks(first));
      assert log == Gots(obtained) + Nacks(first) + Nacks(ByTag(obtained)) + [Closed];
    }
  }

  lemma CourseOfOrderly(queue: seq<Delivery>, lock: Lock, preflight: Preflight, limit: nat, faults: Faults)
    ensures var (n, end) := Course(queue, lock, preflight, limit, faults);
      && (Orderly(queue, lock, preflight, limit, faults) <==> Settled(end) && !CancelledWithin(faults, 0, n))
      && (Settled(end) ==> n == Min(limit, |queue|) && Undisturbed(queue, limit, faults, true, 0))
  {
    SettlesIff(queue, limit, faults, true, 0);
  }

  lemma ExitsZeroIff(faults: Faults, report: Report, preflight: bool, end: End, n: nat)
    requires Says(report, faults, preflight, Judged(faults, end, n))
    ensures report.errorCode == 0 <==>
      Settled(end) && !CancelledWithin(faults, 0, n) && CleanNacks(faults, n) && !faults.close
  {
  }

  lemma OrderlyReports(
    report: Option<Report>, log: seq<Event>, faults: Faults, obtained: seq<Delivery>, end: End)
    requires Ran(report, log, faults, true, obtained, end)
    requires Settled(end) && !CancelledWithin(faults, 0, |obtained|)
    requires forall i | 0 <= i < |obtained| :: obtained[i].readable
    ensures report.Some? && ReportsRun(report.value.lines, log, faults, obtained)
  {
    assert Gots(obtained) + Nacks([]) == Gots(obtained);
  }

  /**
   The exit code is zero exactly for a clean run, and an orderly one reports its nacks in
   turn; both can be told before the run.
   */
  lemma RunEnds(
    queue: seq<Delivery>, lock: Lock, preflight: Preflight, limit: nat, faults: Faults,
    report: Option<Report>, log: seq<Event>)
    requires var (n, end) := Course(queue, lock, preflight, limit, faults);
      Ran(report, log, faults, Starts(lock, preflight), queue[..n], end)
    ensures report.Some? ==> (report.value.errorCode == 0 <==> Clean(queue, lock, preflight, limit, faults))
    ensures Orderly(queue, lock, preflight, limit, faults) ==>
      report.Some? && ReportsRun(report.value.lines, log, faults, queue[..Min(limit, |queue|)])
  {
    var (n, end) := Course(queue, lock, preflight, limit, faults);
    CourseOfOrderly(queue, lock, preflight, limit, faults);
    if report.Some? {
      ExitsZeroIff(faults, report.value, Starts(lock, preflight), end, n);
    }
    if Orderly(queue, lock, preflight, limit, faults) {
      OrderlyReports(report, log, faults, queue[..n], end);
    }
  }

  /** The exit code of a report, in numbers. */
  lemma ExitCodes(report: Report, faults: Faults, preflight: bool, end: End, n: nat)
    requires Says(report, faults, preflight, Judged(faults, end, n))
    ensures report.errorCode == 7 <==> faults.close
    ensures report.errorCode == 5 <==> !faults.close && end == Refused
    ensures report.errorCode in {0, 5, 6, 7} && report.closed == !faults.close
    ensures report.execution == Cancelled <==>
      !faults.close && (end == Interrupted || (Settled(end) && CancelledWithin(faults, 0, n)))
    ensures report.errorCode == 6 <==> report.execution == Cancelled || report.execution == MessageError
  {
  }

  /**
   The whole run: what it draws, does and reports is fixed by what it meets. The one way out
   without a report is a cancellation that reaches the nacks of the failure path.
   */
  method RunSnapshot(broker: Broker, lock: Lock, preflight: Preflight, limit: nat) returns (report: Option<Report>)
    requires broker.attempts == 0 && broker.log == []
    modifies broker
    ensures var (n, end) := Course(old(broker.ready), lock, preflight, limit, broker.faults);
      && broker.ready == old(broker.ready)[n..]
      && Ran(report, broker.log, broker.faults, Starts(lock, preflight), old(broker.ready)[..n], end)
      && (report.None? <==> end.Broken? && CancelledWithin(broker.faults, 0, n))
      && if report.None? then Closed !in broker.log else HandedBack(old(broker.ready)[..n], broker.log)
    ensures report.Some? ==>
      (report.value.errorCode == 0 <==> Clean(old(broker.ready), lock, preflight, limit, broker.faults))
    ensures Orderly(old(broker.ready), lock, preflight, limit, broker.faults) ==>
      && report.Some?
      && ReportsRun(
           report.value.lines, broker.log, broker.faults, old(broker.ready)[..Min(limit, |old(broker.ready)|)])
  {
    ghost var queue := broker.ready;
    report := Follow(broker, lock, preflight, limit);
    ghost var (n, end) := Course(queue, lock, preflight, limit, broker.faults);
    RanHandsBack(report, broker.log, broker.faults, Starts(lock, preflight), queue[..n], end);
    RunEnds(queue, lock, preflight, limit, broker.faults, report, broker.log);
  }

  lemma RefusalRan(report: Report, log: seq<Event>, faults: Faults)
    requires log == [Closed] && report.lines == [] && Says(report, faults, false, PreflightError)
    ensures Ran(Some(report), log, faults, false, [], Refused)
  {
    assert Gots([]) + Nacks([]) + (Nacks(ByTag([])) + [Closed]) == [Closed];
  }

  lemma CancelledRan(report: Report, log: seq<Event>, faults: Faults, preflight: bool, obtained: seq<Delivery>)
    requires log == Gots(obtained) + Nacks(ByTag(obtained)) + [Closed]
    requires Reports(report.lines, faults, 0, obtained, None) && Says(report, faults, preflight, Cancelled)
    ensures Ran(Some(report), log, faults, preflight, obtained, Interrupted)
  {
    assert Gots(obtained) + Nacks([]) == Gots(obtained);
  }

  /** The exits of the run. */
  method Follow(broker: Broker, lock: Lock, preflight: Preflight, limit: nat) returns (report: Option<Report>)
    requires broker.attempts == 0 && broker.log == []
    modifies broker
    ensures var (n, end) := Course(old(broker.ready), lock, preflight, limit, broker.faults);
      && broker.ready == old(broker.ready)[n..]
      && Ran(report, broker.log, broker.faults, Starts(lock, preflight), old(broker.ready)[..n], end)
  {
    if lock.Contended? || (lock.LockTaken? && preflight.Refuses?) {
      var refusal := ReportRefusal(broker);
      RefusalRan(refusal, broker.log, broker.faults);
      return Some(refusal);
    }
    if lock.LockRaises? || preflight.PreflightRaises? {
      report := ReportFailure(broker, false, [], []);
      return;
    }
    if preflight.PreflightCancelled? {
      var cancelled := ReportCancelled(broker, false, [], []);
      CancelledRan(cancelled, broker.log, broker.faults, false, []);
      return Some(cancelled);
    }
    report := DrawAndReport(broker, limit);
  }

  /** The run once the preflight has passed. */
  method DrawAndReport(broker: Broker, limit: nat) returns (report: Option<Report>)
    requires broker.attempts == 0 && broker.log == []
    modifies broker
    ensures var (n, end) := Drawing(old(broker.ready), limit, broker.faults, true, 0);
      && broker.ready == old(broker.ready)[n..]
      && Ran(report, broker.log, broker.faults, true, old(broker.ready)[..n], end)
  {
    ghost var queue := broker.ready;
    var obtained, verdicts, end := DrawAll(broker, limit);
    assert obtained == queue[..|obtained|];
    if end.Broken? {
      report := ReportFailure(broker, true, obtained, verdicts);
    } else if end.Interrupted? {
      var cancelled := ReportCancelled(broker, true, obtained, verdicts);
      CancelledRan(cancelled, broker.log, broker.faults, true, obtained);
      report := Some(cancelled);
    } else {
      report := NackAndClose(broker, obtained, verdicts, end.QueueEmpty? && obtained == [], end);
    }
  }

  /** Line i speaks of one message: its verdict is on the delivery whose nack gave its outcome. */
  ghost predicate SpeaksOfOne(lines: seq<Line>, log: seq<Event>, i: nat) {
    i < |lines| && i < |NackedIn(log)| && lines[i].verdict == Some(NackedIn(log)[i])
  }

  /**
   The lines of an orderly run speak of one message each exactly when the messages were
   drawn in ascending tag order: outcomes follow the nacks, verdicts follow the draws.
   */
  lemma LinesMatchIffAscending(lines: seq<Line>, log: seq<Event>, faults: Faults, obtained: seq<Delivery>)
    requires ReportsRun(lines, log, faults, obtained)
    ensures (forall i: nat | i < |obtained| :: SpeaksOfOne(lines, log, i)) <==> Ascending(obtained)
  {
    NackedInRun(obtained, ByTag(obtained));
    ByTagFixesAscending(obtained);
    forall i: nat | i < |obtained|
      ensures SpeaksOfOne(lines, log, i) <==> ByTag(obtained)[i] == obtained[i]
    {
      assert ReportedAt(lines, faults, 0, obtained, i);
    }
    if forall i: nat | i < |obtained| :: SpeaksOfOne(lines, log, i) {
      forall i | 0 <= i < |obtained| ensures ByTag(obtained)[i] == obtained[i] {
        assert SpeaksOfOne(lines, log, i) && ReportedAt(lines, faults, 0, obtained, i);
      }
      assert ByTag(obtained) == obtained;
    }
  }

  lemma PairByTag(a: Delivery, b: Delivery)
    requires a.tag > b.tag
    ensures ByTag([a, b]) == [b, a]
  {
    assert [a, b][..1] == [a] && [a][..0] == [];
    assert ByTag([a]) == [a];
    assert Insert(b, [a]) == [b, a];
  }

  lemma PairEvents(a: Delivery, b: Delivery)
    ensures Gots([a, b]) == [Got(a), Got(b)] && Nacks([a, b]) == [Nacked(a), Nacked(b)]
  {
    assert [a, b][..1] == [a] && [a][..0] == [];
    assert Gots([a]) == [Got(a)] && Nacks([a]) == [Nacked(a)];
  }

  /** Two messages drawn in descending tag order: each line pairs one's verdict with the other's outcome. */
  lemma DescendingTagsCross(a: Delivery, b: Delivery, faults: Faults)
    requires a.tag > b.tag && a.readable && b.readable
    ensures var lines := [Line(1, faults.Attempt(0), Some(a)), Line(2, faults.Attempt(1), Some(b))];
      var log := [Got(a), Got(b), Nacked(b), Nacked(a), Closed];
      && ReportsRun(lines, log, faults, [a, b])
      && NackedIn(log) == [b, a] && !SpeaksOfOne(lines, log, 0) && !SpeaksOfOne(lines, log, 1)
  {
    PairByTag(a, b);
    PairEvents(a, b);
    PairEvents(b, a);
    NackedInRun([a, b], [b, a]);
  }
}
