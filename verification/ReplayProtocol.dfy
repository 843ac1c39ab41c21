/**
 The documented replay order (gate, durable reservation, publish, confirm, success) run
 against the ledger, with a crash and reload possible between any two steps, and other
 ledger events arriving in between.
 */
module ReplayProtocol {
  import opened Prelude
  import opened ReplayLedger

  /** What the process has done for the message in hand. */
  datatype Phase =
    | Idle
    | Gated(fingerprint: string)
    | Reserved(fingerprint: string)
    | Published(fingerprint: string)
    | Confirmed(fingerprint: string)

  /** What the outside world has seen, in order. */
  datatype Effect = OnDisk(event: Event) | Publish(fingerprint: string)

  datatype State = State(durable: seq<Event>, memory: seq<Event>, phase: Phase, history: seq<Effect>)

  datatype Step =
    | Gate(class_: Class, scopedKey: bool, priorSuccess: bool, fingerprint: string)
    | Reserve(event: Event, persist: Persist)
    | PublishNow
    | Confirm(ok: bool)
    | RecordSuccess(event: Event, persist: Persist)
    | AppendOther(event: Event, persist: Persist)
    | Crash

  /** The ledger after an append, and the phase it leads to if it did not raise. */
  function AfterAppend(s: State, e: Event, p: Persist, next: Phase): State {
    var (durable, memory, error) := Appended(s.durable, s.memory, e, p);
    State(durable, memory,
          if error.None? then next else Idle,
          if durable != s.durable then s.history + [OnDisk(e)] else s.history)
  }

  function Next(s: State, step: Step): State {
    match step
    case Gate(class_, scopedKey, priorSuccess, f) =>
      if s.phase.Idle? && GateOpens(class_, scopedKey, priorSuccess, s.memory, Some(f))
      then s.(phase := Gated(f)) else s
    case Reserve(e, p) =>
      if s.phase.Gated? && e.content.fingerprint == s.phase.fingerprint && e.content.reason == Some(ReplayReserved)
      then AfterAppend(s, e, p, Reserved(s.phase.fingerprint)) else s
    case PublishNow =>
      if s.phase.Reserved?
      then s.(phase := Published(s.phase.fingerprint), history := s.history + [Publish(s.phase.fingerprint)]) else s
    case Confirm(ok) =>
      if s.phase.Published? then s.(phase := if ok then Confirmed(s.phase.fingerprint) else Idle) else s
    case RecordSuccess(e, p) =>
      if s.phase.Confirmed? && e.content.fingerprint == s.phase.fingerprint && e.content.reason == Some(ReplaySucceeded)
      then AfterAppend(s, e, p, Idle) else s
    case AppendOther(e, p) => AfterAppend(s, e, p, s.phase).(phase := s.phase)
    case Crash => s.(memory := s.durable, phase := Idle)
  }

  function Run(s: State, steps: seq<Step>): State {
    if steps == [] then s else Next(Run(s, steps[..|steps| - 1]), steps[|steps| - 1])
  }

  /** An append that reaches the disk. */
  ghost predicate Lands(memory: seq<Event>, e: Event, p: Persist) {
    Refusal(memory, e).None? && !p.Lost?
  }

  /** The step declares a message unpublished between its reservation and its publish. */
  ghost predicate ReconcilesInFlight(s: State, step: Step) {
    && step.AppendOther? && s.phase.Reserved?
    && Reconciles(step.event, s.phase.fingerprint) && Lands(s.memory, step.event, step.persist)
  }

  /** No step of the run reconciles a message in flight. */
  ghost predicate Orderly(s: State, steps: seq<Step>) {
    steps == []
    || (Orderly(s, steps[..|steps| - 1])
        && !ReconcilesInFlight(Run(s, steps[..|steps| - 1]), steps[|steps| - 1]))
  }

  predicate IsReconciliation(x: Effect, fingerprint: string) {
    x.OnDisk? && Reconciles(x.event, fingerprint)
  }

  /** A reconciliation of the fingerprint lies strictly between positions i and j. */
  predicate ReconciledBetween(history: seq<Effect>, fingerprint: string, i: nat, j: nat)
    requires i < j <= |history|
  {
    exists k | i < k < j :: IsReconciliation(history[k], fingerprint)
  }

  /** Any two publishes of one fingerprint have a reconciliation between them. */
  predicate Separated(history: seq<Effect>) {
    forall i, j | 0 <= i < j < |history| && history[i].Publish? && history[j] == history[i] ::
      ReconciledBetween(history, history[i].fingerprint, i, j)
  }

  /** Some publish of the fingerprint has not been reconciled since. */
  predicate Open(history: seq<Effect>, fingerprint: string) {
    exists i | 0 <= i < |history| && history[i] == Publish(fingerprint) ::
      !ReconciledBetween(history, fingerprint, i, |history|)
  }

  lemma OpenAfter(history: seq<Effect>, x: Effect, fingerprint: string)
    ensures x == Publish(fingerprint) ==> Open(history + [x], fingerprint)
    ensures IsReconciliation(x, fingerprint) ==> !Open(history + [x], fingerprint)
    ensures x != Publish(fingerprint) && !IsReconciliation(x, fingerprint) ==>
      (Open(history + [x], fingerprint) <==> Open(history, fingerprint))
  {
    var more, n := history + [x], |history|;
    assert forall i | 0 <= i < n :: more[i] == history[i];
    forall i | 0 <= i < n
      ensures ReconciledBetween(more, fingerprint, i, n + 1)
         <==> ReconciledBetween(history, fingerprint, i, n) || IsReconciliation(x, fingerprint)
    {
      if ReconciledBetween(history, fingerprint, i, n) {
        var k :| i < k < n && IsReconciliation(history[k], fingerprint);
        assert IsReconciliation(more[k], fingerprint);
      }
      if IsReconciliation(x, fingerprint) { assert IsReconciliation(more[n], fingerprint); }
    }
    if x == Publish(fingerprint) {
      assert more[n] == x && !ReconciledBetween(more, fingerprint, n, n + 1);
    }
    if Open(history, fingerprint) && !IsReconciliation(x, fingerprint) {
      var i :| 0 <= i < n && history[i] == Publish(fingerprint) && !ReconciledBetween(history, fingerprint, i, n);
      assert more[i] == Publish(fingerprint) && !ReconciledBetween(more, fingerprint, i, n + 1);
    }
  }

  lemma SeparatedAfter(history: seq<Effect>, x: Effect)
    requires Separated(history)
    requires x.Publish? ==> !Open(history, x.fingerprint)
    ensures Separated(history + [x])
  {
    var more, n := history + [x], |history|;
    forall i, j | 0 <= i < j < |more| && more[i].Publish? && more[j] == more[i]
      ensures ReconciledBetween(more, more[i].fingerprint, i, j)
    {
      assert ReconciledBetween(history, more[i].fingerprint, i, j);
      var k :| i < k < j && IsReconciliation(history[k], more[i].fingerprint);
      assert IsReconciliation(more[k], more[i].fingerprint);
    }
  }

  ghost predicate UnsafeIsBlocked(history: seq<Effect>, events: seq<Event>) {
    forall f :: Open(history, f) ==> Blocked(events, Some(f))
  }

  /** The invariant that carries the separation across steps, crashes and reloads. */
  ghost predicate Inv(s: State) {
    && Separated(s.history)
    && UnsafeIsBlocked(s.history, s.memory)
    && UnsafeIsBlocked(s.history, s.durable)
    && (s.phase.Gated? ==> !Open(s.history, s.phase.fingerprint))
    && (s.phase.Reserved? ==>
          && !Open(s.history, s.phase.fingerprint)
          && Blocked(s.memory, Some(s.phase.fingerprint))
          && Blocked(s.durable, Some(s.phase.fingerprint)))
  }

  lemma AppendKeepsInv(s: State, e: Event, p: Persist, next: Phase)
    requires Inv(s)
    requires next == s.phase
          || next.Idle?
          || (s.phase.Gated? && next == Reserved(s.phase.fingerprint)
              && e.content.fingerprint == s.phase.fingerprint && e.content.reason == Some(ReplayReserved))
    requires s.phase.Reserved? ==> !Reconciles(e, s.phase.fingerprint) || !Lands(s.memory, e, p)
    ensures Inv(AfterAppend(s, e, p, next))
    ensures next == s.phase ==> Inv(AfterAppend(s, e, p, next).(phase := next))
  {
    var s' := AfterAppend(s, e, p, next);
    if s'.durable != s.durable {
      SeparatedAfter(s.history, OnDisk(e));
      forall f ensures
        && (Open(s'.history, f) ==> Blocked(s'.memory, Some(f)) && Blocked(s'.durable, Some(f)))
        && (Open(s'.history, f) ==> Open(s.history, f))
      {
        OpenAfter(s.history, OnDisk(e), f);
        BlockedAfter(s.memory, e, Some(f));
        BlockedAfter(s.durable, e, Some(f));
      }
      if next.Reserved? {
        BlockedAfter(s.memory, e, Some(next.fingerprint));
        BlockedAfter(s.durable, e, Some(next.fingerprint));
      }
    }
  }

  lemma NextKeepsInv(s: State, step: Step)
    requires Inv(s) && !ReconcilesInFlight(s, step)
    ensures Inv(Next(s, step))
  {
    match step
    case Gate(_, _, _, _) =>
    case Reserve(e, p) =>
      if s.phase.Gated? && e.content.fingerprint == s.phase.fingerprint && e.content.reason == Some(ReplayReserved) {
        AppendKeepsInv(s, e, p, Reserved(s.phase.fingerprint));
      }
    case PublishNow =>
      if s.phase.Reserved? {
        SeparatedAfter(s.history, Publish(s.phase.fingerprint));
        forall f
          ensures Open(s.history + [Publish(s.phase.fingerprint)], f) ==> f == s.phase.fingerprint || Open(s.history, f)
        {
          OpenAfter(s.history, Publish(s.phase.fingerprint), f);
        }
      }
    case Confirm(_) =>
    case RecordSuccess(e, p) =>
      if s.phase.Confirmed? {
        AppendKeepsInv(s, e, p, Idle);
      }
    case AppendOther(e, p) => AppendKeepsInv(s, e, p, s.phase);
    case Crash =>
  }

  /**
   However steps, crashes and reloads interleave, starting from any ledger on disk, no
   fingerprint is published twice without a durable reconciliation in between, as long as
   none is reconciled in flight.
   */
  lemma {:induction false} NoUnreconciledRepublish(disk: seq<Event>, steps: seq<Step>)
    requires Orderly(State(disk, disk, Idle, []), steps)
    ensures Inv(Run(State(disk, disk, Idle, []), steps))
    ensures Separated(Run(State(disk, disk, Idle, []), steps).history)
  {
    if steps != [] {
      NoUnreconciledRepublish(disk, steps[..|steps| - 1]);
      NextKeepsInv(Run(State(disk, disk, Idle, []), steps[..|steps| - 1]), steps[|steps| - 1]);
    }
  }

  /** The documented order, undisturbed: gate, reservation, publish, confirmation, success. */
  function FullOrder(f: string, reserved: Event, succeeded: Event): seq<Step> {
    [Gate(ReplayCandidate, false, false, f), Reserve(reserved, Written), PublishNow, Confirm(true),
     RecordSuccess(succeeded, Written)]
  }

  /** Undisturbed, the documented order publishes once, between its reservation and its success, which stay on disk. */
  lemma FullOrderSucceeds(s: State, f: string, reserved: Event, succeeded: Event)
    requires s.phase == Idle && !Unreconciled(s.memory, f)
    requires reserved.content.fingerprint == f && reserved.content.reason == Some(ReplayReserved)
    requires succeeded.content.fingerprint == f && succeeded.content.reason == Some(ReplaySucceeded)
    requires Refusal(s.memory, reserved).None? && Refusal(s.memory + [reserved], succeeded).None?
    ensures Run(s, FullOrder(f, reserved, succeeded)) ==
      State(s.durable + [reserved, succeeded], s.memory + [reserved, succeeded], Idle,
        s.history + [OnDisk(reserved), Publish(f), OnDisk(succeeded)])
  {
    BlockedIffUnreconciled(s.memory, f);
    RunFive(s, Gate(ReplayCandidate, false, false, f), Reserve(reserved, Written), PublishNow, Confirm(true),
      RecordSuccess(succeeded, Written));
    var s1 := s.(phase := Gated(f));
    var s2 := State(s.durable + [reserved], s.memory + [reserved], Reserved(f), s.history + [OnDisk(reserved)]);
    var s3 := s2.(phase := Published(f), history := s2.history + [Publish(f)]);
    assert Next(s, Gate(ReplayCandidate, false, false, f)) == s1;
    assert Next(s1, Reserve(reserved, Written)) == s2;
    assert Next(s2, PublishNow) == s3;
    assert Next(s3, Confirm(true)) == s3.(phase := Confirmed(f));
    SuccessIsRecorded(s3.(phase := Confirmed(f)), f, succeeded);
    assert s.history + [OnDisk(reserved), Publish(f), OnDisk(succeeded)] == s3.history + [OnDisk(succeeded)];
    assert s.durable + [reserved, succeeded] == s2.durable + [succeeded];
    assert s.memory + [reserved, succeeded] == s2.memory + [succeeded];
  }

  lemma SuccessIsRecorded(s: State, f: string, succeeded: Event)
    requires s.phase == Confirmed(f) && Refusal(s.memory, succeeded).None?
    requires succeeded.content.fingerprint == f && succeeded.content.reason == Some(ReplaySucceeded)
    ensures Next(s, RecordSuccess(succeeded, Written)) ==
      State(s.durable + [succeeded], s.memory + [succeeded], Idle, s.history + [OnDisk(succeeded)])
  {
  }

  lemma RunFive(s: State, a: Step, b: Step, c: Step, d: Step, e: Step)
    ensures Run(s, [a, b, c, d, e]) == Next(Next(Next(Next(Next(s, a), b), c), d), e)
  {
    RunFurther(s, a, [b, c, d, e]);
    assert [a, b, c, d, e] == [a] + [b, c, d, e] && [b, c, d, e] == [b] + [c, d, e];
    RunFurther(Next(s, a), b, [c, d, e]);
    assert [c, d, e] == [c] + [d, e] && [d, e] == [d] + [e] && [e] == [e] + [];
    RunFurther(Next(Next(s, a), b), c, [d, e]);
    RunFurther(Next(Next(Next(s, a), b), c), d, [e]);
    RunFurther(Next(Next(Next(Next(s, a), b), c), d), e, []);
  }

  /** The publish of the message in hand was made, and its confirmation came. */
  ghost predicate ConfirmedIn(s: State, steps: seq<Step>, f: string) {
    exists k | 0 <= k < |steps| :: ConfirmsAt(s, steps, k, f)
  }

  ghost predicate ConfirmsAt(s: State, steps: seq<Step>, k: nat, f: string)
    requires k < |steps|
  {
    steps[k] == Confirm(true) && Publish(f) in Run(s, steps[..k]).history
  }

  /** A success is recorded only of a message that was published and then confirmed. */
  lemma {:induction false} SuccessWasConfirmed(disk: seq<Event>, steps: seq<Step>, f: string)
    ensures var start := State(disk, disk, Idle, []);
      && (Run(start, steps).phase == Published(f) ==> Publish(f) in Run(start, steps).history)
      && (Run(start, steps).phase == Confirmed(f) ==> ConfirmedIn(start, steps, f))
    ensures var start, n := State(disk, disk, Idle, []), |steps| - 1;
      n >= 0 && steps[n].RecordSuccess? && steps[n].event.content.fingerprint == f
      && Run(start, steps).history != Run(start, steps[..n]).history ==>
        ConfirmedIn(start, steps, f) && steps[n].event.content.reason == Some(ReplaySucceeded)
  {
    if steps != [] {
      var start, n := State(disk, disk, Idle, []), |steps| - 1;
      SuccessWasConfirmed(disk, steps[..n], f);
      if ConfirmedIn(start, steps[..n], f) {
        var k :| 0 <= k < n && ConfirmsAt(start, steps[..n], k, f);
        assert steps[..n][..k] == steps[..k];
        assert ConfirmsAt(start, steps, k, f);
      }
      if Run(start, steps[..n]).phase == Published(f) && steps[n] == Confirm(true) {
        assert ConfirmsAt(start, steps, n, f);
      }
    }
  }

  /** The gate was asked about a replay candidate with no scoped key and no prior success, and its memory. */
  ghost predicate Authorises(s: State, step: Step, f: string) {
    step == Gate(ReplayCandidate, false, false, f) && !Unreconciled(s.memory, f)
  }

  ghost predicate AuthorisedIn(s: State, steps: seq<Step>, f: string) {
    exists k | 0 <= k < |steps| :: Authorises(Run(s, steps[..k]), steps[k], f)
  }

  ghost predicate InHand(phase: Phase, f: string) {
    !phase.Idle? && phase.fingerprint == f
  }

  lemma AuthorisedFurther(s: State, steps: seq<Step>, f: string)
    requires steps != [] && AuthorisedIn(s, steps[..|steps| - 1], f)
    ensures AuthorisedIn(s, steps, f)
  {
    var front := steps[..|steps| - 1];
    var k :| 0 <= k < |front| && Authorises(Run(s, front[..k]), front[k], f);
    assert front[..k] == steps[..k] && front[k] == steps[k];
  }

  lemma OpenGateAuthorises(s: State, step: Step, f: string)
    requires s.phase.Idle? && step.Gate? && Next(s, step).phase == Gated(f)
    ensures Authorises(s, step, f)
  {
    BlockedIffUnreconciled(s.memory, f);
  }

  /** Nothing is published that did not pass the gate as an unblocked replay candidate. */
  lemma {:induction false} PublishedWasAuthorised(disk: seq<Event>, steps: seq<Step>, f: string)
    ensures var s := Run(State(disk, disk, Idle, []), steps);
      InHand(s.phase, f) || Publish(f) in s.history ==> AuthorisedIn(State(disk, disk, Idle, []), steps, f)
  {
    if steps != [] {
      var start, n := State(disk, disk, Idle, []), |steps| - 1;
      var before, after := Run(start, steps[..n]), Run(start, steps);
      PublishedWasAuthorised(disk, steps[..n], f);
      if InHand(before.phase, f) || Publish(f) in before.history {
        AuthorisedFurther(start, steps, f);
      } else if InHand(after.phase, f) {
        OpenGateAuthorises(before, steps[n], f);
      }
    }
  }

  /** What may follow a reconciliation in flight: a publish that is not confirmed, and another attempt. */
  function Retry(f: string, again: Event): seq<Step> {
    [PublishNow, Confirm(false), Gate(ReplayCandidate, false, false, f), Reserve(again, Written), PublishNow]
  }

  lemma RunFurther(s: State, step: Step, rest: seq<Step>)
    ensures Run(s, [step] + rest) == Run(Next(s, step), rest)
  {
    if rest == [] {
      assert [step] + rest == [step] && [step][..0] == [];
    } else {
      var all := [step] + rest;
      assert all[..|all| - 1] == [step] + rest[..|rest| - 1];
      RunFurther(s, step, rest[..|rest| - 1]);
    }
  }

  /**
   That condition cannot be spared: from every state, a reconciliation in flight can be
   followed by steps that publish its fingerprint twice with nothing reconciled in between.
   */
  lemma ReconcilingInFlightRepublishes(s: State, reconciliation: Event, again: Event)
    requires ReconcilesInFlight(s, AppendOther(reconciliation, Written))
    requires again.content.fingerprint == s.phase.fingerprint && again.content.reason == Some(ReplayReserved)
    requires Refusal(s.memory + [reconciliation], again).None?
    ensures !Separated(Run(Next(s, AppendOther(reconciliation, Written)), Retry(s.phase.fingerprint, again)).history)
  {
    var f, n := s.phase.fingerprint, |s.history|;
    BlockedAfter(s.memory, reconciliation, Some(f));
    var reconciled := Next(s, AppendOther(reconciliation, Written));
    var published := Next(reconciled, PublishNow);
    var unconfirmed := Next(published, Confirm(false));
    var gated := Next(unconfirmed, Gate(ReplayCandidate, false, false, f));
    assert gated.phase == Gated(f);
    var reserved := Next(gated, Reserve(again, Written));
    var final := Next(reserved, PublishNow);
    var steps := Retry(f, again);
    RunFive(reconciled, PublishNow, Confirm(false), Gate(ReplayCandidate, false, false, f), Reserve(again, Written),
      PublishNow);
    var history := final.history;
    assert history == s.history + [OnDisk(reconciliation), Publish(f), OnDisk(again), Publish(f)];
    assert history[n + 1] == history[n + 3] == Publish(f);
    assert !IsReconciliation(history[n + 2], f);
    assert !ReconciledBetween(history, f, n + 1, n + 3);
  }
}
