/**
 The state machine of the bounded snapshot: it reaches COMPLETE only over a full, ordered
 and clean hand-back, and every other way out closes the channel and fails.
 */
module SnapshotCoordinator {
  import opened Prelude
  import opened SnapshotRuntime

  datatype State = Init | Locked | Preflighted | Acquiring | Draining | Aborting | ChannelClosed | Complete | Failed

  datatype Error = LockUnavailable | PreflightFailed | AcquireRaised | DrainAborted | CloseRaised | RunCancelled
    | RecordInvalid

  /** How the nacks of a drain ended. */
  datatype Stop = Drained | Aborted | Cut

  ghost predicate CleanAt(faults: Faults, i: nat) {
    faults.Attempt(i).RequeueRequested?
  }

  /** The n attempts from the given one are all requested cleanly and none is cancelled. */
  ghost predicate CleanFrom(faults: Faults, from: nat, n: nat) {
    !CancelledWithin(faults, from, n) && forall i: nat | from <= i < from + n :: CleanAt(faults, i)
  }

  /** How many of n nacks are made, from the given one on: nothing follows the first one that goes wrong. */
  ghost function NacksMade(faults: Faults, from: nat, n: nat, i: nat): (r: (nat, Stop))
    requires i <= n
    ensures i <= r.0 <= n && (r.1.Cut? ==> i < r.0) && (r.1.Drained? ==> r.0 == n)
    decreases n - i
  {
    if i == n then (n, Drained)
    else if faults.nackCancelled == Some(from + i) then (i + 1, Cut)
    else if !CleanAt(faults, from + i) then (i + 1, Aborted)
    else NacksMade(faults, from, n, i + 1)
  }

  /** A drain makes all its nacks without trouble exactly when all of them are clean. */
  lemma {:induction false} DrainsIff(faults: Faults, from: nat, n: nat, i: nat)
    requires i <= n
    ensures NacksMade(faults, from, n, i).1.Drained? <==> CleanFrom(faults, from + i, n - i)
    decreases n - i
  {
    if i < n && faults.nackCancelled != Some(from + i) && CleanAt(faults, from + i) {
      DrainsIff(faults, from, n, i + 1);
    }
  }

  lemma {:induction false} CleanOutcomes(faults: Faults, from: nat, n: nat)
    requires CleanFrom(faults, from, n)
    ensures AllRequested(Outcomes(faults, from, n))
  {
    forall i | 0 <= i < n ensures Outcomes(faults, from, n)[i].RequeueRequested? {
      OutcomeAt(faults, from, n, i);
      assert CleanAt(faults, from + i);
    }
  }

  ghost function AcquireAnswer(queue: seq<Delivery>, limit: nat, faults: Faults): Result<seq<Delivery>, Error> {
    var (n, end) := Drawing(queue, limit, faults, false, 0);
    match end
    case Interrupted => Failure(RunCancelled)
    case Broken => Failure(AcquireRaised)
    case _ => Success(queue[..n])
  }

  /** What a drain of n deliveries comes to. */
  ghost function DrainAnswer(faults: Faults, from: nat, n: nat): Result<seq<Outcome>, Error> {
    match NacksMade(faults, from, n, 0).1
    case Aborted => Failure(DrainAborted)
    case Cut => Failure(RunCancelled)
    case Drained => Success(Outcomes(faults, from, n))
  }

  /** The nacks that a drain makes. */
  ghost function DrainNacks(faults: Faults, from: nat, drawn: seq<Delivery>): seq<Event> {
    Nacks(ByTag(drawn)[..NacksMade(faults, from, |drawn|, 0).0])
  }

  /** What acquiring, draining and closing come to. */
  ghost function Answer(queue: seq<Delivery>, limit: nat, faults: Faults, from: nat): Result<seq<Outcome>, Error> {
    var acquired :- AcquireAnswer(queue, limit, faults);
    var outcomes :- DrainAnswer(faults, from, |acquired|);
    if faults.close then Failure(CloseRaised) else Success(outcomes)
  }

  /** The draws and the nacks behind an answer. */
  ghost function Work(queue: seq<Delivery>, limit: nat, faults: Faults, from: nat): seq<Event> {
    var (n, end) := Drawing(queue, limit, faults, false, 0);
    var drawn := queue[..n];
    Gots(drawn) + if Settled(end) then DrainNacks(faults, from, drawn) else []
  }

  /** A close that fails leaves its mark on the way. */
  ghost function Marks(faults: Faults): seq<State> {
    if faults.close then [Aborting] else []
  }

  /** The states that acquiring, draining and closing pass through. */
  ghost function Stages(queue: seq<Delivery>, limit: nat, faults: Faults, from: nat): seq<State> {
    var (n, end) := Drawing(queue, limit, faults, false, 0);
    if !Settled(end) then [Acquiring]
    else
      match NacksMade(faults, from, n, 0).1
      case Aborted => [Acquiring, Draining] + Marks(faults) + [Aborting]
      case Cut => [Acquiring, Draining]
      case Drained => if faults.close then [Acquiring, Draining] else [Acquiring, Draining, ChannelClosed]
  }

  /** The drain and the close that raises have tried to close the channel already. */
  ghost predicate TriedToClose(error: Error) {
    error.DrainAborted? || error.CloseRaised?
  }

  /** Nothing goes wrong between the first draw and the close. */
  ghost predicate CleanRun(queue: seq<Delivery>, limit: nat, faults: Faults, from: nat) {
    && Undisturbed(queue, limit, faults, false, 0)
    && CleanFrom(faults, from, Min(limit, |queue|))
    && !faults.close
  }

  /** The answer is a success exactly for a clean run, which nacks all it draws in tag order. */
  lemma AnswersIff(queue: seq<Delivery>, limit: nat, faults: Faults, from: nat)
    ensures Answer(queue, limit, faults, from).Success? <==> CleanRun(queue, limit, faults, from)
    ensures CleanRun(queue, limit, faults, from) ==>
      var drawn := queue[..Min(limit, |queue|)];
      var outcomes := Answer(queue, limit, faults, from).value;
      && Work(queue, limit, faults, from) == Gots(drawn) + Nacks(ByTag(drawn))
      && AllRequested(outcomes) && |outcomes| == |drawn|
  {
    var (n, end) := Drawing(queue, limit, faults, false, 0);
    SettlesIff(queue, limit, faults, false, 0);
    DrainsIff(faults, from, n, 0);
    if CleanRun(queue, limit, faults, from) {
      CleanOutcomes(faults, from, n);
      assert ByTag(queue[..n])[..n] == ByTag(queue[..n]);
    }
  }

  function Last(log: seq<Event>): Event
    requires log != []
  {
    log[|log| - 1]
  }

  /** What acquiring, draining and closing answer, have done to the channel, and went through. */
  ghost predicate HandsBack(
    queue: seq<Delivery>, limit: nat, faults: Faults, from: nat, r: Result<seq<Outcome>, Error>, log: seq<Event>,
    before: seq<State>, trace: seq<State>)
  {
    match r
    case Success(_) =>
      && r == Answer(queue, limit, faults, from)
      && log == Work(queue, limit, faults, from) + [Closed]
      && trace == before + Stages(queue, limit, faults, from)
    case Failure(error) =>
      && r == Answer(queue, limit, faults, from)
      && log == Work(queue, limit, faults, from) + (if TriedToClose(error) then [Closed] else [])
      && trace == before + Stages(queue, limit, faults, from)
  }

  lemma AcquiringFails(
    queue: seq<Delivery>, limit: nat, faults: Faults, from: nat, error: Error, log: seq<Event>,
    before: seq<State>, trace: seq<State>)
    requires AcquireAnswer(queue, limit, faults) == Failure(error)
    requires log == Gots(queue[..Drawing(queue, limit, faults, false, 0).0]) && trace == before + [Acquiring]
    ensures HandsBack(queue, limit, faults, from, Failure(error), log, before, trace)
  {
  }

  /** How a drain of what was acquired ends, with the close that follows it. */
  lemma DrainingEnds(
    queue: seq<Delivery>, limit: nat, faults: Faults, from: nat, drawn: seq<Delivery>,
    r: Result<seq<Outcome>, Error>, log: seq<Event>, before: seq<State>, trace: seq<State>)
    requires AcquireAnswer(queue, limit, faults) == Success(drawn) && r == DrainAnswer(faults, from, |drawn|)
    requires log == Gots(drawn) + DrainNacks(faults, from, drawn) + if r == Failure(DrainAborted) then [Closed] else []
    requires trace == before + [Acquiring] + [Draining]
      + if NacksMade(faults, from, |drawn|, 0).1.Aborted? then Marks(faults) + [Aborting] else []
    ensures r.Failure? ==> HandsBack(queue, limit, faults, from, Failure(r.error), log, before, trace)
    ensures r.Success? ==>
      if faults.close then HandsBack(queue, limit, faults, from, Failure(CloseRaised), log + [Closed], before, trace)
      else HandsBack(queue, limit, faults, from, r, log + [Closed], before, trace + [ChannelClosed])
  {
    var (n, end) := Drawing(queue, limit, faults, false, 0);
    assert drawn == queue[..n] && |drawn| == n;
    match NacksMade(faults, from, n, 0).1
    case Drained =>
    case Cut =>
    case Aborted =>
      assert before + [Acquiring] + [Draining] + (Marks(faults) + [Aborting])
        == before + ([Acquiring, Draining] + Marks(faults) + [Aborting]);
  }

  /** What a run that passed its preflight answers, has done to the channel, and went through. */
  ghost predicate Followed(
    queue: seq<Delivery>, limit: nat, faults: Faults, from: nat, r: Result<seq<Outcome>, Error>, log: seq<Event>,
    before: seq<State>, trace: seq<State>)
  {
    match r
    case Success(_) =>
      && r == Answer(queue, limit, faults, from)
      && log == Work(queue, limit, faults, from) + [Closed]
      && trace == before + [Locked, Preflighted] + Stages(queue, limit, faults, from) + [Complete]
    case Failure(error) =>
      && r == Answer(queue, limit, faults, from)
      && log == Work(queue, limit, faults, from) + (if TriedToClose(error) then [Closed, Closed] else [Closed])
      && trace == before + [Locked, Preflighted] + Stages(queue, limit, faults, from) + Marks(faults) + [Failed]
  }

  lemma HandsBackFollows(
    queue: seq<Delivery>, limit: nat, faults: Faults, from: nat, r: Result<seq<Outcome>, Error>, log: seq<Event>,
    before: seq<State>, trace: seq<State>)
    requires HandsBack(queue, limit, faults, from, r, log, before + [Locked] + [Preflighted], trace)
    ensures r.Success? ==> Followed(queue, limit, faults, from, r, log, before, trace + [Complete])
    ensures r.Failure? ==>
      Followed(queue, limit, faults, from, r, log + [Closed], before, trace + Marks(faults) + [Failed])
  {
    assert before + [Locked] + [Preflighted] == before + [Locked, Preflighted];
  }

  /** A complete run nacked all it acquired once each, cleanly and in tag order, and went through every stage. */
  ghost predicate RanComplete(
    queue: seq<Delivery>, limit: nat, r: Result<seq<Outcome>, Error>, acquired: seq<Delivery>, log: seq<Event>,
    before: seq<State>, trace: seq<State>)
  {
    match r
    case Failure(_) => false
    case Success(outcomes) =>
      && acquired == queue[..Min(limit, |queue|)]
      && log == Gots(acquired) + Nacks(ByTag(acquired)) + [Closed]
      && Ascending(ByTag(acquired)) && multiset(ByTag(acquired)) == multiset(acquired)
      && |outcomes| == |acquired| && AllRequested(outcomes)
      && trace == before + [Locked, Preflighted, Acquiring, Draining, ChannelClosed, Complete]
  }

  /** A run succeeds exactly if it is clean, and otherwise it never went through the closed stage. */
  lemma FollowedEnds(
    queue: seq<Delivery>, limit: nat, faults: Faults, from: nat, r: Result<seq<Outcome>, Error>, log: seq<Event>,
    before: seq<State>, trace: seq<State>)
    requires Followed(queue, limit, faults, from, r, log, before, trace)
    ensures r.Success? <==> CleanRun(queue, limit, faults, from)
    ensures log != [] && Last(log) == Closed
    ensures r.Success? ==> RanComplete(queue, limit, r, queue[..Min(limit, |queue|)], log, before, trace)
    ensures r.Failure? ==>
      |trace| > |before| && trace[|trace| - 1] == Failed && ChannelClosed !in trace[|before|..]
  {
    AnswersIff(queue, limit, faults, from);
    if r.Failure? {
      FailureEnds(queue, limit, faults, from, r.error, before, trace);
    } else {
      SuccessEnds(queue, limit, faults, from, r, log, before, trace);
    }
  }

  lemma FailureEnds(
    queue: seq<Delivery>, limit: nat, faults: Faults, from: nat, error: Error, before: seq<State>, trace: seq<State>)
    requires Answer(queue, limit, faults, from).Failure?
    requires trace == before + [Locked, Preflighted] + Stages(queue, limit, faults, from) + Marks(faults) + [Failed]
    ensures |trace| > |before| && trace[|trace| - 1] == Failed && ChannelClosed !in trace[|before|..]
  {
    StagesEnd(queue, limit, faults, from);
    var passed := [Locked, Preflighted] + Stages(queue, limit, faults, from) + Marks(faults) + [Failed];
    assert trace == before + passed;
    assert trace[|before|..] == passed;
  }

  lemma SuccessEnds(
    queue: seq<Delivery>, limit: nat, faults: Faults, from: nat, r: Result<seq<Outcome>, Error>, log: seq<Event>,
    before: seq<State>, trace: seq<State>)
    requires r.Success? && Followed(queue, limit, faults, from, r, log, before, trace)
    ensures RanComplete(queue, limit, r, queue[..Min(limit, |queue|)], log, before, trace)
  {
    AnswersIff(queue, limit, faults, from);
    SuccessTrace(queue, limit, faults, from, before, trace);
    ByTagAscending(queue[..Min(limit, |queue|)]);
    ByTagKeeps(queue[..Min(limit, |queue|)]);
  }

  lemma SuccessTrace(
    queue: seq<Delivery>, limit: nat, faults: Faults, from: nat, before: seq<State>, trace: seq<State>)
    requires Answer(queue, limit, faults, from).Success?
    requires trace == before + [Locked, Preflighted] + Stages(queue, limit, faults, from) + [Complete]
    ensures trace == before + [Locked, Preflighted, Acquiring, Draining, ChannelClosed, Complete]
  {
    StagesEnd(queue, limit, faults, from);
  }

  lemma StagesEnd(queue: seq<Delivery>, limit: nat, faults: Faults, from: nat)
    ensures Answer(queue, limit, faults, from).Success? ==>
      Stages(queue, limit, faults, from) == [Acquiring, Draining, ChannelClosed]
    ensures Answer(queue, limit, faults, from).Failure? ==> ChannelClosed !in Stages(queue, limit, faults, from)
  {
  }

  predicate AllRequested(outcomes: seq<Outcome>) {
    forall i | 0 <= i < |outcomes| :: outcomes[i].RequeueRequested?
  }

  /** The messages acquired so far are the head of the queue. */
  ghost predicate HeadDrawn(
    queue: seq<Delivery>, buffered: seq<Delivery>, ready: seq<Delivery>, before: seq<Event>, log: seq<Event>)
  {
    && |buffered| <= |queue| && buffered == queue[..|buffered|] && ready == queue[|buffered|..]
    && log == before + Gots(buffered)
  }

  /** The acquiring goes on as it would from the start, or has come to its end. */
  ghost predicate OnCourse(queue: seq<Delivery>, limit: nat, faults: Faults, n: nat, end: Option<End>) {
    match end
    case None => n <= |queue| && Drawing(queue, limit, faults, false, n) == Drawing(queue, limit, faults, false, 0)
    case Some(e) => Drawing(queue, limit, faults, false, 0) == (n, e)
  }

  lemma OnCourseEnds(queue: seq<Delivery>, limit: nat, faults: Faults, n: nat, end: End)
    requires OnCourse(queue, limit, faults, n, None) && Drawing(queue, limit, faults, false, n) == (n, end)
    ensures OnCourse(queue, limit, faults, n, Some(end))
  {
  }

  lemma OnCourseFurther(queue: seq<Delivery>, limit: nat, faults: Faults, n: nat)
    requires OnCourse(queue, limit, faults, n, None) && n < |queue| && n < limit && Answered(faults, n)
    ensures OnCourse(queue, limit, faults, n + 1, None)
  {
  }

  lemma HeadDrawnFurther(
    queue: seq<Delivery>, buffered: seq<Delivery>, ready: seq<Delivery>, before: seq<Event>, log: seq<Event>,
    d: Delivery, rest: seq<Delivery>)
    requires HeadDrawn(queue, buffered, ready, before, log) && ready == [d] + rest
    ensures HeadDrawn(queue, buffered + [d], rest, before, log + [Got(d)])
  {
    OneMoreDrawn(queue, |buffered|);
  }

  /**
   The first n nacks of a drain are made, and it goes on as it would from the start, or has
   been stopped by the last of them.
   */
  ghost predicate NackedSoFar(
    faults: Faults, from: nat, order: seq<Delivery>, n: nat, before: seq<Event>, log: seq<Event>,
    outcomes: seq<Outcome>, stop: Stop)
  {
    match stop
    case Drained =>
      && n <= |order| && log == before + Nacks(order[..n]) && outcomes == Outcomes(faults, from, n)
      && NacksMade(faults, from, |order|, n) == NacksMade(faults, from, |order|, 0)
    case Aborted =>
      && n <= |order| && log == before + Nacks(order[..n]) && outcomes == Outcomes(faults, from, n)
      && NacksMade(faults, from, |order|, 0) == (n, Aborted)
    case Cut =>
      && 0 < n <= |order| && log == before + Nacks(order[..n]) && outcomes == Outcomes(faults, from, n - 1)
      && NacksMade(faults, from, |order|, 0) == (n, Cut)
  }

  lemma NoneNacked(faults: Faults, from: nat, order: seq<Delivery>, log: seq<Event>)
    ensures NackedSoFar(faults, from, order, 0, log, log, [], Drained)
  {
  }

  lemma OneMoreNacked(
    faults: Faults, from: nat, order: seq<Delivery>, n: nat, before: seq<Event>, log: seq<Event>,
    outcomes: seq<Outcome>)
    requires n < |order| && NackedSoFar(faults, from, order, n, before, log, outcomes, Drained)
    ensures var log', outcome := log + [Nacked(order[n])], faults.Attempt(from + n);
      if faults.nackCancelled == Some(from + n) then
        NackedSoFar(faults, from, order, n + 1, before, log', outcomes, Cut)
      else
        NackedSoFar(faults, from, order, n + 1, before, log', outcomes + [outcome],
          if outcome.RequeueRequested? then Drained else Aborted)
  {
    NacksTake(order, n);
  }

  lemma DrainEnds(
    faults: Faults, from: nat, drawn: seq<Delivery>, n: nat, before: seq<Event>, log: seq<Event>,
    outcomes: seq<Outcome>, stop: Stop)
    requires NackedSoFar(faults, from, ByTag(drawn), n, before, log, outcomes, stop)
    requires stop.Drained? ==> n == |drawn|
    ensures NacksMade(faults, from, |drawn|, 0) == (n, stop)
    ensures log == before + DrainNacks(faults, from, drawn)
    ensures outcomes == Outcomes(faults, from, if stop.Cut? then n - 1 else n)
  {
  }

  class Coordinator {
    const broker: Broker
    const bufferCapacity: int
    const snapshotCap: int
    var state: State
    var outcomes: seq<Outcome>
    var acquired: seq<Delivery>
    /** The states so far, in order. */
    ghost var trace: seq<State>

    constructor (broker: Broker, bufferCapacity: int, snapshotCap: int)
      ensures this.broker == broker && state == Init && outcomes == [] && trace == [Init]
      ensures this.bufferCapacity == bufferCapacity && this.snapshotCap == snapshotCap
    {
      this.broker := broker;
      this.bufferCapacity := bufferCapacity;
      this.snapshotCap := snapshotCap;
      state := Init;
      outcomes := [];
      acquired := [];
      trace := [Init];
    }

    /** How many messages one snapshot holds: the smaller bound, but at least one under the cap. */
    function Bound(): nat {
      Max(0, Min(snapshotCap, Max(1, bufferCapacity)))
    }

    /** Acquire and retain deliveries, up to the bounds or the end of the queue. */
    method Acquire() returns (r: Result<seq<Delivery>, Error>)
      modifies this`state, this`trace, broker`ready, broker`log
      ensures state == Acquiring && trace == old(trace) + [Acquiring]
      ensures var (n, end) := Drawing(old(broker.ready), Bound(), broker.faults, false, 0);
        && broker.ready == old(broker.ready)[n..] && broker.log == old(broker.log) + Gots(old(broker.ready)[..n])
        && (Settled(end) <==> r.Success?)
      ensures r == AcquireAnswer(old(broker.ready), Bound(), broker.faults)
    {
      state, trace := Acquiring, trace + [Acquiring];
      var buffered: seq<Delivery> := [];
      ghost var queue, limit, before := broker.ready, Bound(), broker.log;
      ghost var end := Enough;
      while |buffered| < snapshotCap
        invariant HeadDrawn(queue, buffered, broker.ready, before, broker.log)
        invariant OnCourse(queue, limit, broker.faults, |buffered|, None)
        invariant |buffered| <= limit && (buffered == [] || |buffered| < bufferCapacity)
        invariant state == Acquiring && trace == old(trace) + [Acquiring] && end == Enough
        decreases snapshotCap - |buffered|
      {
        ghost var ready, log := broker.ready, broker.log;
        var draw := broker.GetOne(|buffered|);
        match draw {
          case DrawRaised =>
            OnCourseEnds(queue, limit, broker.faults, |buffered|, Broken);
            return Failure(AcquireRaised);
          case DrawCancelled =>
            OnCourseEnds(queue, limit, broker.faults, |buffered|, Interrupted);
            return Failure(RunCancelled);
          case Empty =>
            end := QueueEmpty;
            break;
          case Drawn(d) =>
            HeadDrawnFurther(queue, buffered, ready, before, log, d, broker.ready);
            OnCourseFurther(queue, limit, broker.faults, |buffered|);
            buffered := buffered + [d];
            if |buffered| >= bufferCapacity {
              break;
            }
        }
      }
      OnCourseEnds(queue, limit, broker.faults, |buffered|, end);
      r := Success(buffered);
    }

    /** Nack in ascending tag order; the first unsatisfactory outcome aborts, and closes. */
    method Drain(buffered: seq<Delivery>) returns (r: Result<seq<Outcome>, Error>)
      modifies this`state, this`trace, this`outcomes, broker`attempts, broker`log
      ensures r == DrainAnswer(broker.faults, old(broker.attempts), |buffered|)
      ensures broker.log == old(broker.log) + DrainNacks(broker.faults, old(broker.attempts), buffered)
        + if r == Failure(DrainAborted) then [Closed] else []
      ensures var (n, stop) := NacksMade(broker.faults, old(broker.attempts), |buffered|, 0);
        && broker.attempts == old(broker.attempts) + n
        && outcomes == Outcomes(broker.faults, old(broker.attempts), if stop.Cut? then n - 1 else n)
        && state == (if stop.Aborted? then Aborting else Draining)
        && trace == old(trace) + [Draining] + if stop.Aborted? then Marks(broker.faults) + [Aborting] else []
    {
      state, outcomes, trace := Draining, [], trace + [Draining];
      var order := ByTag(buffered);
      ghost var from, before := broker.attempts, broker.log;
      NoneNacked(broker.faults, from, order, before);
      for i := 0 to |order|
        invariant NackedSoFar(broker.faults, from, order, i, before, broker.log, outcomes, Drained)
        invariant broker.attempts == from + i
        invariant state == Draining && trace == old(trace) + [Draining]
      {
        OneMoreNacked(broker.faults, from, order, i, before, broker.log, outcomes);
        var outcome := broker.AttemptNack(order[i], false);
        if outcome.None? {
          DrainEnds(broker.faults, from, buffered, i + 1, before, broker.log, outcomes, Cut);
          return Failure(RunCancelled);
        }
        outcomes := outcomes + [outcome.value];
        if outcome.value != RequeueRequested {
          DrainEnds(broker.faults, from, buffered, i + 1, before, broker.log, outcomes, Aborted);
          BestEffortClose();
          state, trace := Aborting, trace + [Aborting];
          return Failure(DrainAborted);
        }
      }
      DrainEnds(broker.faults, from, buffered, |order|, before, broker.log, outcomes, Drained);
      r := Success(outcomes);
    }

    /** Close, and never let a failed close hide what went wrong before. */
    method BestEffortClose()
      modifies this`state, this`trace, broker`log
      ensures broker.log == old(broker.log) + [Closed]
      ensures state == (if broker.faults.close then Aborting else old(state))
      ensures trace == old(trace) + Marks(broker.faults)
    {
      var failed := broker.SafeClose();
      if failed {
        state, trace := Aborting, trace + [Aborting];
      }
    }

    /** Acquire, drain and close, up to the first failure. */
    method HandBackAll() returns (r: Result<seq<Outcome>, Error>)
      requires broker.log == []
      modifies this, broker
      ensures var n := Drawing(old(broker.ready), Bound(), broker.faults, false, 0).0;
        && broker.ready == old(broker.ready)[n..]
        && (r.Success? ==> acquired == old(broker.ready)[..n])
      ensures HandsBack(
        old(broker.ready), Bound(), broker.faults, old(broker.attempts), r, broker.log, old(trace), trace)
    {
      ghost var queue, from, before := broker.ready, broker.attempts, trace;
      var got := Acquire();
      if got.Failure? {
        AcquiringFails(queue, Bound(), broker.faults, from, got.error, broker.log, before, trace);
        return Failure(got.error);
      }
      acquired := got.value;
      var drained := Drain(acquired);
      DrainingEnds(queue, Bound(), broker.faults, from, acquired, drained, broker.log, before, trace);
      if drained.Failure? {
        return Failure(drained.error);
      }
      var closeFailed := broker.SafeClose();
      if closeFailed {
        return Failure(CloseRaised);
      }
      state, trace := ChannelClosed, trace + [ChannelClosed];
      r := Success(drained.value);
    }

    /** The steps of a run, and where each of them leaves it. */
    method Follow(lock: Lock, preflight: Preflight) returns (r: Result<seq<Outcome>, Error>)
      requires state == Init && broker.log == []
      modifies this, broker
      ensures !lock.LockTaken? ==> r == Failure(LockUnavailable) && state == Init
      ensures lock.LockTaken? ==> state == if r.Success? then Complete else Failed
      ensures !Starts(lock, preflight) ==>
        r.Failure? && broker.ready == old(broker.ready) && broker.log == if lock.LockTaken? then [Closed] else []
      ensures lock.LockTaken? && !Starts(lock, preflight) ==>
        && r == Failure(if preflight.PreflightCancelled? then RunCancelled else PreflightFailed)
        && trace == old(trace) + [Locked] + Marks(broker.faults) + [Failed]
      ensures Starts(lock, preflight) ==>
        var n := Drawing(old(broker.ready), Bound(), broker.faults, false, 0).0;
        broker.ready == old(broker.ready)[n..] && (r.Success? ==> acquired == old(broker.ready)[..n])
      ensures Starts(lock, preflight) ==>
        Followed(
          old(broker.ready), Bound(), broker.faults, old(broker.attempts), r, broker.log, old(trace), trace)
    {
      if !lock.LockTaken? {
        return Failure(LockUnavailable);
      }
      state, trace := Locked, trace + [Locked];
      r := Failure(if preflight.PreflightCancelled? then RunCancelled else PreflightFailed);
      ghost var queue, from, before := broker.ready, broker.attempts, old(trace);
      if preflight.Passes? {
        state, trace := Preflighted, trace + [Preflighted];
        r := HandBackAll();
        HandsBackFollows(queue, Bound(), broker.faults, from, r, broker.log, before, trace);
      }
      if r.Failure? {
        BestEffortClose();
        state, trace := Failed, trace + [Failed];
      } else {
        state, trace := Complete, trace + [Complete];
      }
    }

    /**
     The run. COMPLETE means that every acquired delivery was nacked once, cleanly and in
     ascending tag order, and that the channel closed after the last one; any other end after
     the lock is FAILED, with no nack after the first bad one and the channel closed.
     */
    method Run(lock: Lock, preflight: Preflight) returns (r: Result<seq<Outcome>, Error>)
      requires state == Init && broker.log == []
      modifies this, broker
      ensures !lock.LockTaken? ==> r == Failure(LockUnavailable) && state == Init && broker.log == []
      ensures lock.LockTaken? ==>
        state == (if r.Success? then Complete else Failed) && broker.log != [] && Last(broker.log) == Closed
      ensures Starts(lock, preflight) ==>
        Followed(
          old(broker.ready), Bound(), broker.faults, old(broker.attempts), r, broker.log, old(trace), trace)
      ensures broker.ready == if !Starts(lock, preflight) then old(broker.ready)
        else old(broker.ready)[Drawing(old(broker.ready), Bound(), broker.faults, false, 0).0..]
      ensures state == Complete <==>
        Starts(lock, preflight) && CleanRun(old(broker.ready), Bound(), broker.faults, old(broker.attempts))
      ensures state == Complete ==>
        RanComplete(old(broker.ready), Bound(), r, acquired, broker.log, old(trace), trace)
      // A failed run passes the stages in order up to the failure, and never the closed one.
      ensures lock.LockTaken? && r.Failure? ==>
        && |trace| > |old(trace)| && trace[|trace| - 1] == Failed
        && ChannelClosed !in trace[|old(trace)|..]
      ensures lock.LockTaken? && !Starts(lock, preflight) ==>
        && r == Failure(if preflight.PreflightCancelled? then RunCancelled else PreflightFailed)
        && trace == old(trace) + [Locked] + Marks(broker.faults) + [Failed]
    {
      ghost var queue, from, before := broker.ready, broker.attempts, trace;
      SettlesIff(queue, Bound(), broker.faults, false, 0);
      r := Follow(lock, preflight);
      if Starts(lock, preflight) {
        FollowedEnds(queue, Bound(), broker.faults, from, r, broker.log, before, trace);
      }
    }
  }

  datatype Record = Record(sequence: nat, delivery: Delivery, outcome: Outcome)

  /** Pair deliveries with outcomes, position by position. */
  function Paired(deliveries: seq<Delivery>, outcomes: seq<Outcome>): (r: seq<Record>)
    requires |deliveries| == |outcomes|
    ensures |r| == |deliveries|
    ensures forall i | 0 <= i < |r| :: r[i] == Record(i + 1, deliveries[i], outcomes[i])
  {
    if deliveries == [] then []
    else
      var n := |deliveries| - 1;
      Paired(deliveries[..n], outcomes[..n]) + [Record(n + 1, deliveries[n], outcomes[n])]
  }

  /**
   A snapshot with its records: a report is only emitted for a complete run of classifiable
   messages, and each of its records names a message whose own nack was requested cleanly.
   */
  method EmitSnapshot(c: Coordinator, lock: Lock, preflight: Preflight)
    returns (r: Result<seq<Record>, Error>)
    requires c.state == Init && c.broker.log == []
    modifies c, c.broker
    ensures var queue := old(c.broker.ready);
      var drawn := queue[..Min(c.Bound(), |queue|)];
      && (r.Success? <==>
            && Starts(lock, preflight) && CleanRun(queue, c.Bound(), c.broker.faults, old(c.broker.attempts))
            && forall d | d in drawn :: d.readable)
      && (r.Success? ==>
            && |r.value| == |drawn|
            && (forall i | 0 <= i < |drawn| :: r.value[i] == Record(i + 1, ByTag(drawn)[i], RequeueRequested))
            && c.broker.log == Gots(drawn) + Nacks(ByTag(drawn)) + [Closed])
  {
    ghost var queue := c.broker.ready;
    var outcomes := c.Run(lock, preflight);
    if outcomes.Failure? {
      return Failure(outcomes.error);
    }
    var deliveries := ByTag(c.acquired);
    forall d ensures d in deliveries <==> d in c.acquired {
      SameElements(c.acquired, d);
    }
    if exists d | d in deliveries :: !d.readable {
      return Failure(RecordInvalid);
    }
    r := Success(Paired(deliveries, outcomes.value));
  }
}
