/**
 The terms on which the pilot may run, in plain numbers and document fields: which plans can
 be charged, activated and resumed, and by which receipts. Times are microseconds in UTC.
 */
module PilotTerms {
  import opened Prelude
  import opened PilotPlan
  import opened PilotControl
  import opened PilotResume
  import opened PilotRun

  // ---------------------------------------------------------------------------
  // The plan
  // ---------------------------------------------------------------------------

  /** The days of two times, of 24 hours each, are the same. */
  ghost predicate SameDay(a: int, b: int) {
    a / 86_400_000_000 == b / 86_400_000_000
  }

  ghost predicate OnDay(p: Plan, time: int) {
    p.executionDay.Some? && p.executionDay.value == time / 86_400_000_000
  }

  /** Nothing stops the execution: not its deadline, its day, nor its limit of attempts. */
  ghost predicate Runs(p: Plan, now: int) {
    && (p.executionUntil.Some? ==> now < p.executionUntil.value)
    && (p.executionDay.Some? ==> OnDay(p, now))
    && (p.attemptLimit.Some? ==> 0 <= p.executionConsumed && p.executionConsumed < p.attemptLimit.value)
  }

  /** No worker holds the plan. */
  ghost predicate Unleased(p: Plan, now: int) {
    if p.leaseUntil.Some? then p.leaseUntil.value <= now else !p.leaseToken
  }

  lemma RunsIff(p: Plan, now: int)
    ensures ExecutionAllowed(p, now) <==> Runs(p, now)
    ensures LeaseError(p, now).None? <==> Unleased(p, now)
  {
  }

  /** A charge of an initial attempt happens exactly on a running plan with budget left for its source. */
  lemma InitialChargeIff(h: Hashes, p: Plan, s: Source, now: int)
    ensures Next(h, p, ChargeInitial(s, now)).Some? <==>
      && p.state == Active && p.eligible && s in p.sources && Runs(p, now)
      && s in p.budget && p.budget[s].consumed < p.budget[s].physicalAttempts
      && p.totalConsumed < p.totalBudget
    ensures Next(h, p, ChargeInitial(s, now)).Some? ==>
      Next(h, p, ChargeInitial(s, now)).value ==
        p.(budget := p.budget[s := Entry(p.budget[s].physicalAttempts, p.budget[s].consumed + 1)],
           totalConsumed := p.totalConsumed + 1, executionConsumed := p.executionConsumed + 1)
  {
  }

  /** What has been counted of a source on the day; a counter that is missing is nothing. */
  ghost function CountOf(p: Plan, s: Source): int {
    if s in p.incrementalSource then p.incrementalSource[s] else 0
  }

  /** A maintenance charge happens exactly on a running plan, on its counters' day, within both allowances. */
  lemma MaintenanceChargeIff(h: Hashes, p: Plan, s: Source, now: int)
    ensures Next(h, p, ChargeMaintenance(s, now)).Some? <==>
      && p.state == Active && p.eligible && s in p.sources && Runs(p, now)
      && p.incrementalDay.On? && p.incrementalDay.day == now / 86_400_000_000
      && p.policy.Some? && p.incrementalConsumed < p.policy.value.total && CountOf(p, s) < p.policy.value.perSource
    ensures Next(h, p, ChargeMaintenance(s, now)).Some? ==>
      Next(h, p, ChargeMaintenance(s, now)).value ==
        p.(incrementalConsumed := p.incrementalConsumed + 1,
           incrementalSource := p.incrementalSource[s := CountOf(p, s) + 1],
           executionConsumed := p.executionConsumed + 1)
  {
  }

  /** A rollover zeroes the day's counters of a running plan exactly when they are not of this day. */
  lemma RolloverIff(h: Hashes, p: Plan, s: Source, now: int)
    ensures var next := Next(h, p, Rollover(s, now));
      && (next.Some? <==>
            && p.state == Active && p.eligible && s in p.sources && Runs(p, now)
            && p.incrementalDay != On(now / 86_400_000_000))
      && (next.Some? ==>
            && next.value == p.(incrementalDay := next.value.incrementalDay, incrementalConsumed := 0,
                                incrementalSource := next.value.incrementalSource)
            && next.value.incrementalDay == On(now / 86_400_000_000)
            && forall other :: CountOf(next.value, other) == 0)
  {
  }

  // ---------------------------------------------------------------------------
  // Receipts
  // ---------------------------------------------------------------------------

  /** The document is the pinned receipt of an applied action of this kind, for this seller and policy. */
  ghost predicate Genuine(h: Hashes, presented: Pinned<Receipt>, action: Action) {
    && presented.document.Some?
    && var r := presented.document.value;
      h.receipt(r) == presented.pin && r.action == action && r.applied && r.seller && r.policyVersion
  }

  lemma ReadsIff(h: Hashes, presented: Pinned<Receipt>, action: Action)
    ensures ReadReceipt(h, presented, action).Success? <==> Genuine(h, presented, action)
    ensures Genuine(h, presented, action) ==>
      ReadReceipt(h, presented, action) == Success(presented.document.value)
  {
  }

  /** A plan whose caps are tight is activated exactly on these terms. */
  lemma ActivatesOnTerms(h: Hashes, p: Plan, now: int, prepared: Pinned<Receipt>, verified: bool)
    requires Tight(p) && p.executionUntil.value <= now + 5_400_000_000
    ensures Activate(h, p, now, prepared, verified).Success? <==>
      && verified
      && prepared.document.Some? && h.receipt(prepared.document.value) == prepared.pin
      && var r := prepared.document.value;
        && r.action == Prepares && r.applied && r.seller
        && r.executionId == p.executionId && r.plan == h.plan(p)
        && p.state == Paused && p.eligible && OnDay(p, now) && Runs(p, now) && Unleased(p, now)
  {
    ActivatesIff(h, p, now, prepared, verified);
    RunsIff(p, now);
  }

  // ---------------------------------------------------------------------------
  // The caps of a plan that runs on
  // ---------------------------------------------------------------------------

  /** The five sources of an initial acquisition. */
  ghost predicate Initial(s: Source) {
    s.Orders? || s.Questions? || s.Shipments? || s.Messages? || s.ClaimsReturns?
  }

  ghost predicate FiveSources(remaining: map<Source, int>) {
    forall s :: s in remaining <==> Initial(s)
  }

  lemma InitialIff()
    ensures forall s :: s in INITIAL_SOURCES <==> Initial(s)
  {
  }

  /** The attempts of a source are within what was left of its grant at the start. */
  ghost predicate AttemptsFit(p: Plan, s: Source, remaining: int, grant: int) {
    && s in p.budget
    && 0 <= p.budget[s].consumed <= p.budget[s].physicalAttempts <= remaining <= grant
  }

  /** The preparation's receipt states what was left before anything of the day was spent. */
  ghost predicate StatesStart(credit: Option<Credit>) {
    credit.Some? && FiveSources(credit.value.initial) && credit.value.pending && credit.value.natural.Some?
  }

  ghost predicate BudgetFits(p: Plan, remaining: map<Source, int>)
    requires FiveSources(remaining)
  {
    && AttemptsFit(p, Orders, remaining[Orders], 800) && AttemptsFit(p, Questions, remaining[Questions], 150)
    && AttemptsFit(p, Shipments, remaining[Shipments], 250) && AttemptsFit(p, Messages, remaining[Messages], 300)
    && AttemptsFit(p, ClaimsReturns, remaining[ClaimsReturns], 500)
    && FullWithdrawals in p.budget
    && 0 <= p.budget[FullWithdrawals].physicalAttempts <= p.budget[FullWithdrawals].consumed
  }

  ghost predicate TotalsFit(p: Plan, remaining: map<Source, int>)
    requires FiveSources(remaining)
  {
    && 0 <= p.totalConsumed <= p.totalBudget
    && p.totalBudget <= remaining[Orders] + remaining[Questions] + remaining[Shipments] + remaining[Messages]
                        + remaining[ClaimsReturns]
    && p.attemptLimit.Some? && 0 <= p.executionSent <= p.executionConsumed
    && p.executionConsumed < p.attemptLimit.value <= 2500
  }

  /** The allowances are within the original ones, and the counters of the day can be read. */
  ghost predicate DailyFits(p: Plan, natural: DailyPolicy, now: int) {
    && p.policy.Some?
    && 0 <= p.policy.value.total <= 500 && p.policy.value.total <= natural.total
    && 0 <= p.policy.value.perSource <= 300 && p.policy.value.perSource <= natural.perSource
    && DayReadable(p, now)
  }

  /** The counters of maintenance are of this day and complete, or of an earlier one. */
  ghost predicate DayReadable(p: Plan, now: int) {
    && 0 <= p.incrementalConsumed
    && (forall s | s in p.incrementalSource && !s.Other? :: 0 <= p.incrementalSource[s])
    && match p.incrementalDay
       case NoDay => true
       case BadDay => false
       case On(day) =>
         && day <= now / 86_400_000_000
         && (day == now / 86_400_000_000 ==>
               p.incrementalSource.Keys == {Orders, Questions, Shipments, Messages, ClaimsReturns, FullWithdrawals})
  }

  ghost predicate CapsFit(p: Plan, credit: Option<Credit>, now: int) {
    && StatesStart(credit)
    && BudgetFits(p, credit.value.initial) && TotalsFit(p, credit.value.initial)
    && DailyFits(p, credit.value.natural.value, now) && Unleased(p, now)
  }

  lemma FiveKeys(remaining: map<Source, int>)
    ensures remaining.Keys == (set s | s in KNOWN && s in INITIAL_SOURCES) <==> FiveSources(remaining)
  {
    var five := set s | s in KNOWN && s in INITIAL_SOURCES;
    InitialIff();
    assert forall s :: s in five <==> Initial(s);
    if FiveSources(remaining) {
      assert forall s :: s in remaining.Keys <==> s in five;
    } else {
      var s :| !(s in remaining <==> Initial(s));
      assert s in remaining.Keys <==> s !in five;
    }
  }

  lemma AttemptsIff(p: Plan, remaining: map<Source, int>)
    requires FiveSources(remaining)
    ensures AttemptsError(p, remaining, INITIAL_SOURCES).None? && FullWithdrawalsError(p).None?
       <==> BudgetFits(p, remaining)
  {
    InitialIff();
    if BudgetFits(p, remaining) {
      forall s | s in INITIAL_SOURCES
        ensures s in p.budget && EntryValid(p.budget[s]) && WithinStart(p.budget[s], remaining[s], InitialGrant(s))
      {
      }
    }
    if AttemptsError(p, remaining, INITIAL_SOURCES).None? {
      SourceFits(p, remaining, Orders);
      SourceFits(p, remaining, Questions);
      SourceFits(p, remaining, Shipments);
      SourceFits(p, remaining, Messages);
      SourceFits(p, remaining, ClaimsReturns);
    }
  }

  lemma SourceFits(p: Plan, remaining: map<Source, int>, s: Source)
    requires FiveSources(remaining) && Initial(s)
    requires forall s | s in INITIAL_SOURCES :: s in remaining
    requires AttemptsError(p, remaining, INITIAL_SOURCES).None?
    ensures AttemptsFit(p, s, remaining[s], InitialGrant(s))
  {
    InitialIff();
  }

  lemma TotalOfFive(remaining: map<Source, int>)
    requires FiveSources(remaining)
    ensures forall s | s in INITIAL_SOURCES :: s in remaining
    ensures Total(remaining, INITIAL_SOURCES) ==
      remaining[Orders] + remaining[Questions] + remaining[Shipments] + remaining[Messages] + remaining[ClaimsReturns]
  {
    var five := INITIAL_SOURCES;
    assert five[4..] == [ClaimsReturns] && five[4..][1..] == [];
    assert five[3..][1..] == five[4..] && five[2..][1..] == five[3..] && five[1..][1..] == five[2..];
    assert Total(remaining, five[4..]) == remaining[ClaimsReturns];
    assert Total(remaining, five[3..]) == remaining[Messages] + remaining[ClaimsReturns];
    assert Total(remaining, five[2..]) == remaining[Shipments] + Total(remaining, five[3..]);
    assert Total(remaining, five[1..]) == remaining[Questions] + Total(remaining, five[2..]);
  }

  lemma DailyIff(p: Plan, natural: DailyPolicy, now: int)
    ensures Maintain(p, now).Success? && DailyWithin(p, natural) <==> DailyFits(p, natural, now)
  {
  }

  /** A plan's caps are accepted for running on exactly when they fit what its preparation left. */
  lemma ResumeCapsIff(p: Plan, original: Receipt, now: int)
    ensures ResumeCapsError(p, original, now).None? <==> CapsFit(p, original.credit, now)
  {
    if original.credit.Some? {
      FiveKeys(original.credit.value.initial);
    }
    if StatesStart(original.credit) {
      AttemptsIff(p, original.credit.value.initial);
      TotalOfFive(original.credit.value.initial);
      DailyIff(p, original.credit.value.natural.value, now);
      RunsIff(p, now);
    }
  }

  // ---------------------------------------------------------------------------
  // Preparing
  // ---------------------------------------------------------------------------

  /** The scope names known sources, each once, and at least one of the five. */
  ghost predicate ScopeFits(sources: seq<Source>) {
    && (forall i | 0 <= i < |sources| :: !sources[i].Other?)
    && (forall i, j | 0 <= i < j < |sources| :: sources[i] != sources[j])
    && exists i :: 0 <= i < |sources| && Initial(sources[i])
  }

  lemma ScopeIff(sources: seq<Source>)
    ensures ValidScope(sources) && Scoped(INITIAL_SOURCES, sources) != [] <==> ScopeFits(sources)
  {
    InitialIff();
    var scoped := Scoped(INITIAL_SOURCES, sources);
    if ValidScope(sources) && scoped != [] {
      assert scoped[0] in scoped;
      var i :| 0 <= i < |sources| && sources[i] == scoped[0];
      assert Initial(sources[i]);
      forall k | 0 <= k < |sources| ensures !sources[k].Other? {
        assert sources[k] in sources;
      }
    }
    if ScopeFits(sources) {
      var i :| 0 <= i < |sources| && Initial(sources[i]);
      assert sources[i] in scoped;
      forall s | s in sources ensures Known(s) {
        var k :| 0 <= k < |sources| && sources[k] == s;
      }
    }
  }

  ghost predicate BudgetReadable(p: Plan) {
    forall s: Source | !s.Other? :: s in p.budget && p.budget[s].physicalAttempts >= 0 && p.budget[s].consumed >= 0
  }

  /** The execution is this one if there is one, of this day, and its deadline lies ahead. */
  ghost predicate Preparing(p: Plan, now: int, id: Option<string>) {
    && p.eligible && p.datesValid
    && id.Some? && |id.value| == 32 && (forall c | c in id.value :: '0' <= c <= '9' || 'a' <= c <= 'f')
    && (p.executionId.Some? ==> p.executionId == id)
    && (p.executionDay.Some? ==> OnDay(p, now))
    && (p.executionUntil.Some? ==> now < p.executionUntil.value)
  }

  ghost predicate TotalsReadable(p: Plan) {
    && p.totalConsumed >= 0 && p.totalBudget >= 0 && p.executionConsumed >= 0
    && (p.attemptLimit.Some? ==> p.attemptLimit.value >= 0)
  }

  ghost predicate DailyReadable(p: Plan, now: int) {
    p.policy.Some? && p.policy.value.total >= 0 && p.policy.value.perSource >= 0 && DayReadable(p, now)
  }

  lemma MaintainIff(p: Plan, now: int)
    ensures Maintain(p, now).Success? <==> DailyReadable(p, now)
  {
  }

  lemma PreparingIff(p: Plan, now: int, id: Option<string>)
    ensures Unpreparable(p, now, id).None? <==> Preparing(p, now, id) && ScopeFits(p.sources)
  {
    assert forall c: char :: c in "0123456789abcdef" <==> '0' <= c <= '9' || 'a' <= c <= 'f';
    ScopeIff(p.sources);
    assert Deadline(p, now) <= now <==> p.executionUntil.Some? && p.executionUntil.value <= now;
  }

  lemma TotalsIff(p: Plan)
    ensures TotalsError(p).None? <==> TotalsReadable(p)
  {
  }

  lemma BudgetIff(p: Plan)
    ensures BudgetError(p, SOURCES).None? <==> BudgetReadable(p)
  {
    BudgetKnown(p);
  }

  /** A plan is prepared exactly on these terms. */
  lemma PreparesOnTerms(p: Plan, now: int, id: Option<string>)
    ensures Prepare(p, now, id).Success? <==>
      Preparing(p, now, id) && ScopeFits(p.sources) && TotalsReadable(p) && BudgetReadable(p) && DailyReadable(p, now)
  {
    PreparingIff(p, now, id);
    TotalsIff(p);
    BudgetIff(p);
    MaintainIff(p, now);
  }

  /** The grant of attempts of a source. */
  ghost function GrantOf(s: Source): int {
    if s.Orders? then 800
    else if s.Questions? then 150
    else if s.Shipments? then 250
    else if s.Messages? then 300
    else if s.ClaimsReturns? then 500
    else 0
  }

  /** The caps that a preparation writes: the lesser of the old one and what is spent plus the grant. */
  lemma PreparedInNumbers(p: Plan, now: int, id: Option<string>, patch: Patch)
    requires Prepare(p, now, id) == Success(patch)
    ensures patch.Prepared?
    ensures var c, midnight := patch.caps, (now / 86_400_000_000 + 1) * 86_400_000_000;
      && Some(c.executionId) == id && c.day == now / 86_400_000_000
      && c.totalBudget == Min(p.totalBudget, p.totalConsumed + 2000)
      && c.attemptLimit ==
           (if p.attemptLimit.Some? then Min(p.attemptLimit.value, p.executionConsumed + 2500)
            else p.executionConsumed + 2500)
      && now < c.until <= midnight && c.until <= now + 5_400_000_000
      && (p.executionUntil.Some? ==> c.until <= p.executionUntil.value)
      && (c.until == midnight || c.until == now + 5_400_000_000 || Some(c.until) == p.executionUntil)
      && c.daily.total == Min(p.policy.value.total,
           (if p.incrementalDay == On(now / 86_400_000_000) then p.incrementalConsumed else 0) + 500)
    ensures forall s: Source | !s.Other? ::
      s in patch.caps.attempts
      && patch.caps.attempts[s] == Min(p.budget[s].physicalAttempts, p.budget[s].consumed + GrantOf(s))
  {
    PreparesOnTerms(p, now, id);
    var m := PreparedFrom(p, now, id, patch);
    forall s: Source | !s.Other?
      ensures s in patch.caps.attempts
      ensures patch.caps.attempts[s] == Min(p.budget[s].physicalAttempts, p.budget[s].consumed + GrantOf(s))
    {
      assert CappedAt(p, patch.caps, s);
    }
  }

  // ---------------------------------------------------------------------------
  // Receipts of extensions
  // ---------------------------------------------------------------------------

  /** A paused, eligible execution of the five sources. */
  ghost predicate Pilot(p: Plan) {
    && p.executionId.Some? && |p.executionId.value| == 32
    && (forall c | c in p.executionId.value :: '0' <= c <= '9' || 'a' <= c <= 'f')
    && p.state == Paused && p.eligible
    && p.sources == [Orders, Questions, Shipments, Messages, ClaimsReturns]
  }

  lemma PilotIff(p: Plan)
    ensures SamePilot(p) <==> Pilot(p)
  {
    assert forall c: char :: c in "0123456789abcdef" <==> '0' <= c <= '9' || 'a' <= c <= 'f';
  }

  /** The extension rests on these two receipts and on the plan as it was then. */
  ghost predicate RestsOn(l: Lineage, plan: string, preparePin: string, pausePin: string) {
    l.previousPlan == plan && l.preparedReceipt == preparePin && l.pausedReceipt == pausePin
  }

  /** It moves the deadline forward, at most by what its authority allows. */
  ghost predicate Prolongs(l: Lineage, ceiling: int) {
    && 0 < l.maxSeconds <= ceiling
    && l.previousUntil < l.until && l.until <= l.authorizedAt + l.maxSeconds * 1_000_000
  }

  /** The deadline before it was one that the preparation could have given. */
  ghost predicate FromFirstWindow(l: Lineage, started: int) {
    started < l.previousUntil <= started + 5_400_000_000
  }

  /** An extension of the plan's execution, as far as its own receipt goes. */
  ghost predicate Extension(e: Receipt, p: Plan) {
    e.lineage.Some? && e.observed.Some? && e.executionId == p.executionId && e.state == Paused
  }

  /** A source has no more left, of its grant and of the day, than the receipt says. */
  ghost predicate NotRegained(p: Plan, prior: Credit, s: Source)
    requires p.policy.Some? && FiveSources(prior.initial)
    requires prior.bySource.Some? && FiveSources(prior.bySource.value)
  {
    Initial(s) ==>
      && s in p.budget
      && p.budget[s].physicalAttempts <= p.budget[s].consumed + prior.initial[s] && 0 <= prior.initial[s]
      && p.policy.value.perSource <= CountOf(p, s) + prior.bySource.value[s] && 0 <= prior.bySource.value[s]
  }

  /** Nothing was regained: no source, and maintenance as a whole, has more left than the receipt says. */
  ghost predicate NothingRegained(p: Plan, now: int, prior: Credit) {
    && !prior.pending && FiveSources(prior.initial)
    && prior.bySource.Some? && FiveSources(prior.bySource.value) && prior.maintenance.Some?
    && Current(p, now)
    && p.policy.value.total <= p.incrementalConsumed + prior.maintenance.value && 0 <= prior.maintenance.value
    && forall s :: NotRegained(p, prior, s)
  }

  /** A paused readback between the extension and the pause counted no more than the plan does now. */
  ghost predicate ReadBack(h: Hashes, p: Plan, stoppedAt: int, extendedAt: int, consumption: Pinned<Observation>) {
    && consumption.document.Some? && h.observation(consumption.document.value) == consumption.pin
    && var o := consumption.document.value;
      && o.passed && Genuine(h, o.baseline, Pauses)
      && var r := o.baseline.document.value;
        && r.executionId == p.executionId && r.plan == h.plan(p)
        && r.observed.Some? && extendedAt <= r.observed.value <= o.ended <= stoppedAt
        && 0 <= o.sent <= o.charged && 0 <= o.maintenance
        && o.charged <= p.executionConsumed && o.sent <= p.executionSent && o.maintenance <= p.incrementalConsumed
  }

  ghost predicate CreditHolds(h: Hashes, p: Plan, now: int, stoppedAt: int, credit: Option<Credit>, extendedAt: int,
    consumption: Pinned<Observation>)
  {
    credit.Some? && NothingRegained(p, now, credit.value) && ReadBack(h, p, stoppedAt, extendedAt, consumption)
  }

  lemma ReadBackIff(h: Hashes, p: Plan, stoppedAt: int, extendedAt: int, consumption: Pinned<Observation>)
    ensures ConsumptionError(h, p, stoppedAt, extendedAt, consumption).None?
       <==> ReadBack(h, p, stoppedAt, extendedAt, consumption)
  {
    if consumption.document.Some? {
      ReadsIff(h, consumption.document.value.baseline, Pauses);
    }
  }

  lemma CreditIff(h: Hashes, p: Plan, now: int, stoppedAt: int, extension: Receipt, extendedAt: int,
    consumption: Pinned<Observation>)
    ensures ChainCreditError(h, p, now, stoppedAt, extension, extendedAt, consumption).None?
       <==> CreditHolds(h, p, now, stoppedAt, extension.credit, extendedAt, consumption)
  {
    ReadBackIff(h, p, stoppedAt, extendedAt, consumption);
    RegainedIff(p, now, extension.credit);
  }

  /** The counters can be read, and those of maintenance are of this day. */
  ghost predicate Current(p: Plan, now: int) {
    && (forall s | Initial(s) ::
          s in p.budget && p.budget[s].physicalAttempts >= 0 && p.budget[s].consumed >= 0)
    && p.policy.Some? && p.policy.value.total >= 0 && p.policy.value.perSource >= 0
    && DayReadable(p, now) && p.incrementalDay == On(now / 86_400_000_000)
  }

  lemma SummaryIff(p: Plan, now: int)
    ensures Summary(p, now).Success? && !Summary(p, now).value.pending <==> Current(p, now)
  {
    InitialIff();
  }

  lemma SummaryOf(p: Plan, now: int)
    requires Current(p, now)
    ensures Summary(p, now).Success?
    ensures var c := Summary(p, now).value;
      && !c.pending && c.maintenance == Some(Max(0, p.policy.value.total - p.incrementalConsumed))
      && FiveSources(c.initial) && c.bySource.Some? && FiveSources(c.bySource.value)
      && forall s | Initial(s) ::
           && c.initial[s] == Max(0, p.budget[s].physicalAttempts - p.budget[s].consumed)
           && c.bySource.value[s] == Max(0, p.policy.value.perSource - CountOf(p, s))
  {
    SummaryIff(p, now);
    var c := Summary(p, now).value;
    InitialIff();
  }

  ghost predicate NotAboveAt(current: Credit, prior: Credit, s: Source)
    requires FiveSources(prior.initial) && FiveSources(current.initial)
    requires prior.bySource.Some? && FiveSources(prior.bySource.value)
    requires current.bySource.Some? && FiveSources(current.bySource.value)
  {
    Initial(s) ==>
      0 <= current.initial[s] <= prior.initial[s] && 0 <= current.bySource.value[s] <= prior.bySource.value[s]
  }

  lemma NotAboveIff(current: Credit, prior: Credit)
    requires FiveSources(prior.initial) && FiveSources(current.initial)
    requires prior.bySource.Some? && current.bySource.Some? && current.maintenance.Some?
    requires FiveSources(prior.bySource.value) && FiveSources(current.bySource.value)
    ensures CreditNotAbove(current, prior) <==>
      && prior.maintenance.Some? && 0 <= current.maintenance.value <= prior.maintenance.value
      && forall s :: NotAboveAt(current, prior, s)
  {
    InitialIff();
    if CreditNotAbove(current, prior) {
      forall s ensures NotAboveAt(current, prior, s) {
      }
    }
    if forall s :: NotAboveAt(current, prior, s) {
      forall s | s in INITIAL_SOURCES
        ensures 0 <= current.initial[s] <= prior.initial[s]
        ensures 0 <= current.bySource.value[s] <= prior.bySource.value[s]
      {
        assert NotAboveAt(current, prior, s);
      }
    }
  }

  lemma NotAboveSays(p: Plan, now: int, current: Credit, prior: Credit)
    requires Current(p, now) && Summary(p, now) == Success(current)
    requires !prior.pending && FiveSources(prior.initial) && prior.bySource.Some? && FiveSources(prior.bySource.value)
    ensures CreditNotAbove(current, prior) <==> NothingRegained(p, now, prior)
  {
    SummaryOf(p, now);
    NotAboveIff(current, prior);
    forall s ensures NotAboveAt(current, prior, s) <==> NotRegained(p, prior, s) {
    }
  }

  lemma RegainedIff(p: Plan, now: int, credit: Option<Credit>)
    ensures
      (&& Summary(p, now).Success? && !Summary(p, now).value.pending && CreditKnown(credit)
       && CreditNotAbove(Summary(p, now).value, credit.value))
      <==> credit.Some? && NothingRegained(p, now, credit.value)
  {
    SummaryIff(p, now);
    if credit.Some? && credit.value.bySource.Some? {
      FiveKeys(credit.value.initial);
      FiveKeys(credit.value.bySource.value);
      if Current(p, now) && CreditKnown(credit) {
        NotAboveSays(p, now, Summary(p, now).value, credit.value);
      }
    }
  }

  // ---------------------------------------------------------------------------
  // The routes of a resume
  // ---------------------------------------------------------------------------

  /** The extended plan itself, extended since its latest pause. */
  ghost predicate Extended(h: Hashes, p: Plan, now: int, started: int, b: Bounds, extension: Pinned<Receipt>) {
    && Genuine(h, extension, Extends) && Extension(extension.document.value, p) && b.stopped.observed.Some?
    && var e := extension.document.value;
       var l := e.lineage.value;
      && RestsOn(l, b.stopped.plan, b.preparePin, b.pausePin) && e.plan == h.plan(p)
      && Prolongs(l, 7200) && FromFirstWindow(l, started)
      && SameDay(l.until, started) && p.executionUntil == Some(l.until)
      && b.stopped.observed.value <= l.authorizedAt <= e.observed.value <= now < l.until
  }

  lemma ExtendedIff(h: Hashes, p: Plan, now: int, started: int, b: Bounds, extension: Pinned<Receipt>)
    ensures ExtendedEnd(h, p, now, started, b, extension).Success? <==> Extended(h, p, now, started, b, extension)
    ensures ExtendedEnd(h, p, now, started, b, extension).Success? ==>
      ExtendedEnd(h, p, now, started, b, extension).value == extension.document.value.lineage.value.until
  {
    ReadsIff(h, extension, Extends);
  }

  /** The plan as it was paused again, after an extension that rested on an earlier pause. */
  ghost predicate Repaused(h: Hashes, p: Plan, now: int, started: int, b: Bounds, origin: Pinned<Receipt>,
    extension: Pinned<Receipt>, consumption: Pinned<Observation>)
  {
    && Genuine(h, origin, Pauses) && Genuine(h, extension, Extends) && Extension(extension.document.value, p)
    && var o, e := origin.document.value, extension.document.value;
       var l := e.lineage.value;
      && o.observed.Some? && b.stopped.observed.Some? && o.executionId == p.executionId
      && RestsOn(l, o.plan, b.preparePin, origin.pin) && b.stopped.plan == h.plan(p)
      && Prolongs(l, 7200) && FromFirstWindow(l, started)
      && SameDay(l.until, started) && p.executionUntil == Some(l.until)
      && o.observed.value <= l.authorizedAt <= e.observed.value <= b.stopped.observed.value <= now < l.until
      && CreditHolds(h, p, now, b.stopped.observed.value, e.credit, e.observed.value, consumption)
  }

  lemma RepausedIff(h: Hashes, p: Plan, now: int, started: int, b: Bounds, origin: Pinned<Receipt>,
    extension: Pinned<Receipt>, consumption: Pinned<Observation>)
    ensures var end := RepausedEnd(h, p, now, started, b, origin, extension, consumption);
      && (end.Success? <==> Repaused(h, p, now, started, b, origin, extension, consumption))
      && (end.Success? ==> end.value == extension.document.value.lineage.value.until)
  {
    ReadsIff(h, origin, Pauses);
    ReadsIff(h, extension, Extends);
    if Genuine(h, origin, Pauses) && Genuine(h, extension, Extends) {
      var o, e := origin.document.value, extension.document.value;
      RepausedFromIff(h, p, now, started, b, o, origin.pin, e);
      if e.observed.Some? && b.stopped.observed.Some? {
        CreditIff(h, p, now, b.stopped.observed.value, e, e.observed.value, consumption);
      }
    }
  }

  lemma RepausedFromIff(h: Hashes, p: Plan, now: int, started: int, b: Bounds, o: Receipt, originPin: string,
    e: Receipt)
    ensures RepausedFrom(h, p, now, started, b, o, originPin, e) <==>
      && Extension(e, p) && o.observed.Some? && b.stopped.observed.Some? && o.executionId == p.executionId
      && var l := e.lineage.value;
        && RestsOn(l, o.plan, b.preparePin, originPin) && b.stopped.plan == h.plan(p)
        && Prolongs(l, 7200) && FromFirstWindow(l, started)
        && SameDay(l.until, started) && p.executionUntil == Some(l.until)
        && o.observed.value <= l.authorizedAt <= e.observed.value <= b.stopped.observed.value <= now < l.until
  {
  }

  /** All these receipts are of the plan's execution. */
  ghost predicate OfExecution(p: Plan, original: Receipt, origin: Receipt, parent: Receipt, stopped: Receipt) {
    && original.executionId == p.executionId && origin.executionId == p.executionId
    && parent.executionId == p.executionId && stopped.executionId == p.executionId
  }

  /** The receipts of a first extension and its times hold together, and the plan is the one it led to. */
  ghost predicate ParentReceipts(h: Hashes, p: Plan, now: int, original: Receipt, stopped: Receipt, origin: Receipt,
    parent: Receipt, preparePin: string, originPin: string, laterUntil: bool)
  {
    && OfExecution(p, original, origin, parent, stopped)
    && Pilot(p) && stopped.plan == h.plan(p)
    && original.observed.Some? && origin.observed.Some? && parent.observed.Some? && stopped.observed.Some?
    && parent.lineage.Some? && parent.state == Paused
    && var l, started := parent.lineage.value, original.observed.value;
      && l.previousExtension == None && RestsOn(l, origin.plan, preparePin, originPin)
      && Prolongs(l, 7200) && FromFirstWindow(l, started)
      && l.previousUntil <= (started / 86_400_000_000 + 1) * 86_400_000_000
      && started <= origin.observed.value <= l.authorizedAt <= parent.observed.value
      && parent.observed.value <= stopped.observed.value <= now
      && SameDay(l.until, started) && SameDay(now, started) && OnDay(p, started)
      && (!laterUntil ==> p.executionUntil == Some(l.until))
  }

  /** A first extension that a second one, or a resume over two, may rest on. */
  ghost predicate Parent(h: Hashes, p: Plan, now: int, original: Receipt, stopped: Receipt, origin: Receipt,
    parent: Receipt, preparePin: string, originPin: string, consumption: Pinned<Observation>, laterUntil: bool)
  {
    && ParentReceipts(h, p, now, original, stopped, origin, parent, preparePin, originPin, laterUntil)
    && FullWithdrawals in p.budget && p.budget[FullWithdrawals] == Entry(0, 0)
    && CapsFit(p, original.credit, now)
    && CreditHolds(h, p, now, stopped.observed.value, parent.credit, parent.observed.value, consumption)
  }

  lemma ParentReceiptsIff(h: Hashes, p: Plan, now: int, original: Receipt, stopped: Receipt, origin: Receipt,
    parent: Receipt, preparePin: string, originPin: string, laterUntil: bool)
    ensures ParentHolds(h, p, now, original, stopped, origin, parent, preparePin, originPin, laterUntil)
       <==> ParentReceipts(h, p, now, original, stopped, origin, parent, preparePin, originPin, laterUntil)
  {
    PilotIff(p);
  }

  lemma ParentIff(h: Hashes, p: Plan, now: int, original: Receipt, stopped: Receipt, origin: Receipt,
    parent: Receipt, preparePin: string, originPin: string, consumption: Pinned<Observation>, laterUntil: bool)
    ensures
      ChainParentError(
        h, p, now, original, stopped, origin, parent, preparePin, originPin, consumption, laterUntil).None?
      <==> Parent(h, p, now, original, stopped, origin, parent, preparePin, originPin, consumption, laterUntil)
  {
    ParentReceiptsIff(h, p, now, original, stopped, origin, parent, preparePin, originPin, laterUntil);
    ResumeCapsIff(p, original, now);
    if stopped.observed.Some? && parent.observed.Some? {
      CreditIff(h, p, now, stopped.observed.value, parent, parent.observed.value, consumption);
    }
  }

  /** An earlier pause of the same plan, presented as a witness under the five-hour ceiling. */
  ghost predicate Witness(h: Hashes, id: Option<string>, plan: string, earlier: Pinned<Receipt>, latest: int) {
    && Genuine(h, earlier, Pauses)
    && var w := earlier.document.value;
      w.executionId == id && w.state == Paused && w.plan == plan && w.observed.Some? && w.observed.value <= latest
  }

  /** The plan had been paused when the extension was authorised, by its latest pause or by a witness. */
  ghost predicate PausedFirst(h: Hashes, id: Option<string>, plan: string, stoppedAt: int, authorizedAt: int,
    observed: int, ceiling: int, earlier: Option<Pinned<Receipt>>, bound: Option<string>, binding: bool)
  {
    && stoppedAt <= observed && authorizedAt <= observed
    && match earlier
       case None => stoppedAt <= authorizedAt && bound == None
       case Some(w) =>
         && ceiling == 18000 && (bound == Some(w.pin) || (!binding && bound == None))
         && Witness(h, id, plan, w, authorizedAt) && w.document.value.observed.value <= stoppedAt
  }

  lemma PausedFirstIff(h: Hashes, id: Option<string>, plan: string, stoppedAt: int, authorizedAt: int,
    observed: int, ceiling: int, earlier: Option<Pinned<Receipt>>, bound: Option<string>, binding: bool)
    ensures PauseOrder(h, id, plan, stoppedAt, authorizedAt, observed, ceiling, earlier, bound, binding)
       <==> PausedFirst(h, id, plan, stoppedAt, authorizedAt, observed, ceiling, earlier, bound, binding)
  {
    if earlier.Some? {
      ReadsIff(h, earlier.value, Pauses);
    }
  }

  /** The ceiling a second extension states, two hours if it states none. */
  ghost function CeilingOf(l: Lineage): int {
    match l.ceiling
    case None => 7200
    case Some(seconds) => seconds
  }

  /** A second extension whose receipt rests on this pause and on this first extension. */
  ghost predicate Second(e: Receipt, p: Plan, now: int, plan: string, preparePin: string, pausePin: string,
    originPin: string, parent: Receipt, parentPin: string)
  {
    && Extension(e, p) && parent.lineage.Some?
    && var l := e.lineage.value;
      && (CeilingOf(l) == 7200 || CeilingOf(l) == 18000) && Prolongs(l, CeilingOf(l))
      && RestsOn(l, plan, preparePin, pausePin)
      && l.originalPaused == Some(originPin) && l.previousExtension == Some(parentPin)
      && l.previousUntil == parent.lineage.value.until
      && e.observed.value <= now < l.until && p.executionUntil == Some(l.until) && SameDay(l.until, now)
  }

  /** The plan itself, extended a second time since its latest pause. */
  ghost predicate Chained(h: Hashes, p: Plan, now: int, b: Bounds, latest: Pinned<Receipt>, origin: Pinned<Receipt>,
    parent: Pinned<Receipt>, consumption: Pinned<Observation>, earlier: Option<Pinned<Receipt>>)
  {
    && Genuine(h, latest, Extends) && Genuine(h, parent, Extends) && Genuine(h, origin, Pauses)
    && var e, first, o := latest.document.value, parent.document.value, origin.document.value;
      && first.lineage.Some?
      && var before := h.plan(p.(executionUntil := Some(first.lineage.value.until)));
        && Parent(h, p.(executionUntil := Some(first.lineage.value.until)), now, b.original, b.stopped, o, first,
             b.preparePin, origin.pin, consumption, false)
        && Second(e, p, now, before, b.preparePin, b.pausePin, origin.pin, first, parent.pin)
        && e.plan == h.plan(p)
        && PausedFirst(h, p.executionId, before, b.stopped.observed.value, e.lineage.value.authorizedAt,
             e.observed.value, CeilingOf(e.lineage.value), earlier, e.lineage.value.preAuthorization, true)
  }

  lemma ChainedIff(h: Hashes, p: Plan, now: int, b: Bounds, latest: Pinned<Receipt>, origin: Pinned<Receipt>,
    parent: Pinned<Receipt>, consumption: Pinned<Observation>, earlier: Option<Pinned<Receipt>>)
    ensures var end := ChainedEnd(h, p, now, b, latest, origin, parent, consumption, earlier);
      && (end.Success? <==> Chained(h, p, now, b, latest, origin, parent, consumption, earlier))
      && (end.Success? ==> end.value == latest.document.value.lineage.value.until)
  {
    ReadsIff(h, latest, Extends);
    ReadsIff(h, parent, Extends);
    ReadsIff(h, origin, Pauses);
    if Genuine(h, latest, Extends) && Genuine(h, parent, Extends) && Genuine(h, origin, Pauses)
       && parent.document.value.lineage.Some?
    {
      var e, first, o := latest.document.value, parent.document.value, origin.document.value;
      ParentIff(h, BeforeSecond(p, first), now, b.original, b.stopped, o, first, b.preparePin, origin.pin,
        consumption, false);
      ChainedFromIff(h, p, now, b, e, first, origin.pin, parent.pin, earlier);
    }
  }

  lemma ChainedFromIff(h: Hashes, p: Plan, now: int, b: Bounds, e: Receipt, first: Receipt, originPin: string,
    parentPin: string, earlier: Option<Pinned<Receipt>>)
    requires first.lineage.Some?
    ensures ChainedFrom(h, p, now, b, e, first, originPin, parentPin, earlier) <==>
      && b.stopped.observed.Some?
      && var before := h.plan(p.(executionUntil := Some(first.lineage.value.until)));
        && Second(e, p, now, before, b.preparePin, b.pausePin, originPin, first, parentPin)
        && e.plan == h.plan(p)
        && PausedFirst(h, p.executionId, before, b.stopped.observed.value, e.lineage.value.authorizedAt,
             e.observed.value, CeilingOf(e.lineage.value), earlier, e.lineage.value.preAuthorization, true)
  {
    if e.lineage.Some? && e.observed.Some? && b.stopped.observed.Some? {
      var l := e.lineage.value;
      PausedFirstIff(h, p.executionId, l.previousPlan, b.stopped.observed.value, l.authorizedAt, e.observed.value,
        CeilingOf(l), earlier, l.preAuthorization, true);
    }
  }

  /** The plan as it was paused again, after a second extension that rested on a pause in between. */
  ghost predicate ChainRepaused(h: Hashes, p: Plan, now: int, b: Bounds, latest: Pinned<Receipt>,
    origin: Pinned<Receipt>, parent: Pinned<Receipt>, consumption: Pinned<Observation>, step: Pinned<Receipt>,
    earlier: Option<Pinned<Receipt>>)
  {
    && Genuine(h, latest, Extends) && Genuine(h, parent, Extends)
    && Genuine(h, step, Pauses) && Genuine(h, origin, Pauses)
    && var e, first, between, o :=
         latest.document.value, parent.document.value, step.document.value, origin.document.value;
      && Parent(h, p, now, b.original, b.stopped, o, first, b.preparePin, origin.pin, consumption, true)
      && Second(e, p, now, between.plan, b.preparePin, step.pin, origin.pin, first, parent.pin)
      && between.observed.Some? && between.executionId == p.executionId
      && first.observed.value <= between.observed.value <= e.observed.value <= b.stopped.observed.value <= now
      && PausedFirst(h, p.executionId, between.plan, between.observed.value, e.lineage.value.authorizedAt,
           e.observed.value, CeilingOf(e.lineage.value), earlier, e.lineage.value.preAuthorization, true)
      && CreditHolds(h, p, now, b.stopped.observed.value, e.credit, e.observed.value, consumption)
  }

  lemma ChainRepausedIff(h: Hashes, p: Plan, now: int, b: Bounds, latest: Pinned<Receipt>, origin: Pinned<Receipt>,
    parent: Pinned<Receipt>, consumption: Pinned<Observation>, step: Pinned<Receipt>,
    earlier: Option<Pinned<Receipt>>)
    ensures var end := ChainRepausedEnd(h, p, now, b, latest, origin, parent, consumption, step, earlier);
      && (end.Success? <==> ChainRepaused(h, p, now, b, latest, origin, parent, consumption, step, earlier))
      && (end.Success? ==> end.value == latest.document.value.lineage.value.until)
  {
    ReadsIff(h, latest, Extends);
    ReadsIff(h, parent, Extends);
    ReadsIff(h, step, Pauses);
    ReadsIff(h, origin, Pauses);
    if Genuine(h, latest, Extends) && Genuine(h, parent, Extends) && Genuine(h, step, Pauses)
       && Genuine(h, origin, Pauses)
    {
      var e, first, between, o :=
        latest.document.value, parent.document.value, step.document.value, origin.document.value;
      ParentIff(h, p, now, b.original, b.stopped, o, first, b.preparePin, origin.pin, consumption, true);
      ChainRepausedFromIff(h, p, now, b, e, first, between, step.pin, origin.pin, parent.pin, earlier);
      if e.observed.Some? && b.stopped.observed.Some? {
        CreditIff(h, p, now, b.stopped.observed.value, e, e.observed.value, consumption);
      }
    }
  }

  lemma ChainRepausedFromIff(h: Hashes, p: Plan, now: int, b: Bounds, e: Receipt, first: Receipt, between: Receipt,
    stepPin: string, originPin: string, parentPin: string, earlier: Option<Pinned<Receipt>>)
    ensures ChainRepausedFrom(h, p, now, b, e, first, between, stepPin, originPin, parentPin, earlier) <==>
      && b.stopped.observed.Some? && first.observed.Some? && between.observed.Some?
      && Second(e, p, now, between.plan, b.preparePin, stepPin, originPin, first, parentPin)
      && between.executionId == p.executionId
      && first.observed.value <= between.observed.value <= e.observed.value <= b.stopped.observed.value <= now
      && PausedFirst(h, p.executionId, between.plan, between.observed.value, e.lineage.value.authorizedAt,
           e.observed.value, CeilingOf(e.lineage.value), earlier, e.lineage.value.preAuthorization, true)
  {
    if e.lineage.Some? && e.observed.Some? && between.observed.Some? {
      var l := e.lineage.value;
      PausedFirstIff(h, p.executionId, l.previousPlan, between.observed.value, l.authorizedAt, e.observed.value,
        CeilingOf(l), earlier, l.preAuthorization, true);
    }
  }

  /** The receipts of the route lead to the plan. */
  ghost predicate Leads(h: Hashes, p: Plan, now: int, started: int, b: Bounds, route: Route) {
    match route
    case Direct => true
    case AfterExtension(extension) => Extended(h, p, now, started, b, extension)
    case AfterRepause(extension, origin, consumption) =>
      Repaused(h, p, now, started, b, origin, extension, consumption)
    case AfterChain(latest, origin, parent, consumption, earlier) =>
      Chained(h, p, now, b, latest, origin, parent, consumption, earlier)
    case AfterChainRepause(latest, origin, parent, consumption, step, earlier) =>
      ChainRepaused(h, p, now, b, latest, origin, parent, consumption, step, earlier)
  }

  ghost function UntilOf(extension: Pinned<Receipt>, otherwise: int): int {
    if extension.document.Some? && extension.document.value.lineage.Some? then
      extension.document.value.lineage.value.until
    else otherwise
  }

  /** Until when the route lets the plan run: 90 minutes and to midnight, or to the latest approved deadline. */
  ghost function EndOf(route: Route, started: int): int {
    var midnight := (started / 86_400_000_000 + 1) * 86_400_000_000;
    var end := if midnight < started + 5_400_000_000 then midnight else started + 5_400_000_000;
    match route
    case Direct => end
    case AfterExtension(extension) => UntilOf(extension, end)
    case AfterRepause(extension, _, _) => UntilOf(extension, end)
    case AfterChain(latest, _, _, _, _) => UntilOf(latest, end)
    case AfterChainRepause(latest, _, _, _, _, _) => UntilOf(latest, end)
  }

  lemma LeadsIff(h: Hashes, p: Plan, now: int, started: int, b: Bounds, route: Route)
    ensures ResumeEnd(h, p, now, started, b, route).Success? <==> Leads(h, p, now, started, b, route)
    ensures Leads(h, p, now, started, b, route) ==>
      ResumeEnd(h, p, now, started, b, route) == Success(EndOf(route, started))
  {
    match route
    case Direct =>
    case AfterExtension(extension) => ExtendedIff(h, p, now, started, b, extension);
    case AfterRepause(extension, origin, consumption) =>
      RepausedIff(h, p, now, started, b, origin, extension, consumption);
    case AfterChain(latest, origin, parent, consumption, earlier) =>
      ChainedIff(h, p, now, b, latest, origin, parent, consumption, earlier);
    case AfterChainRepause(latest, origin, parent, consumption, step, earlier) =>
      ChainRepausedIff(h, p, now, b, latest, origin, parent, consumption, step, earlier);
  }

  /** The receipts of preparation and pause are genuine, of this execution, and name the plan where they must. */
  ghost predicate Bound(h: Hashes, p: Plan, prepared: Pinned<Receipt>, paused: Pinned<Receipt>, route: Route) {
    && Genuine(h, prepared, Prepares) && Genuine(h, paused, Pauses)
    && var original, stopped := prepared.document.value, paused.document.value;
      && original.executionId == p.executionId && stopped.executionId == p.executionId
      && original.observed.Some? && stopped.observed.Some?
      && (route.Direct? || route.AfterRepause? ==> stopped.plan == h.plan(p))
  }

  /** The instant and the plan's own limits allow it to run on until the end of the route. */
  ghost predicate MayRunOn(p: Plan, now: int, original: Receipt, started: int, stoppedAt: int, end: int) {
    && started <= stoppedAt <= now < end && SameDay(now, started) && OnDay(p, started) && Runs(p, now)
    && p.executionUntil.Some? && p.executionUntil.value <= end
    && CapsFit(p, original.credit, now)
  }

  /** A plan is resumed, by whatever route, exactly on these terms. */
  lemma ResumesOnTerms(h: Hashes, p: Plan, now: int, prepared: Pinned<Receipt>, paused: Pinned<Receipt>,
    verified: bool, route: Route)
    ensures Resume(h, p, now, prepared, paused, verified, route).Success? <==>
      && verified && Pilot(p) && Bound(h, p, prepared, paused, route)
      && var original, stopped := prepared.document.value, paused.document.value;
         var started, stoppedAt := original.observed.value, stopped.observed.value;
        && Leads(h, p, now, started, Bounds(original, stopped, prepared.pin, paused.pin), route)
        && MayRunOn(p, now, original, started, stoppedAt, EndOf(route, started))
  {
    if Resume(h, p, now, prepared, paused, verified, route).Success? {
      OnlyBoundResume(h, p, now, prepared, paused, verified, route);
    }
    if verified && Pilot(p) && Bound(h, p, prepared, paused, route) {
      BoundResumesIff(h, p, now, prepared, paused, route);
    }
  }

  lemma OnlyBoundResume(h: Hashes, p: Plan, now: int, prepared: Pinned<Receipt>, paused: Pinned<Receipt>,
    verified: bool, route: Route)
    requires Resume(h, p, now, prepared, paused, verified, route).Success?
    ensures verified && Pilot(p) && Bound(h, p, prepared, paused, route)
  {
    ReadsIff(h, prepared, Prepares);
    ReadsIff(h, paused, Pauses);
    PilotIff(p);
  }

  lemma BoundResumesIff(h: Hashes, p: Plan, now: int, prepared: Pinned<Receipt>, paused: Pinned<Receipt>,
    route: Route)
    requires Pilot(p) && Bound(h, p, prepared, paused, route)
    ensures Resume(h, p, now, prepared, paused, true, route).Success? <==>
      var original, stopped := prepared.document.value, paused.document.value;
      var started, stoppedAt := original.observed.value, stopped.observed.value;
      && Leads(h, p, now, started, Bounds(original, stopped, prepared.pin, paused.pin), route)
      && MayRunOn(p, now, original, started, stoppedAt, EndOf(route, started))
  {
    var original, stopped := prepared.document.value, paused.document.value;
    var started, stoppedAt := original.observed.value, stopped.observed.value;
    var b := Bounds(original, stopped, prepared.pin, paused.pin);
    ReadsIff(h, prepared, Prepares);
    ReadsIff(h, paused, Pauses);
    PilotIff(p);
    LeadsIff(h, p, now, started, b, route);
    ResumeCapsIff(p, original, now);
    InWindowIff(p, now, started, stoppedAt, EndOf(route, started));
  }

  lemma InWindowIff(p: Plan, now: int, started: int, stoppedAt: int, end: int)
    ensures InWindow(p, now, started, stoppedAt, end) <==>
      && started <= stoppedAt <= now < end && SameDay(now, started) && OnDay(p, started) && Runs(p, now)
      && p.executionUntil.Some? && p.executionUntil.value <= end
  {
    RunsIff(p, now);
  }

  // ---------------------------------------------------------------------------
  // Extending
  // ---------------------------------------------------------------------------

  ghost predicate Authorised(h: Hashes, authority: Pinned<Authority>) {
    && authority.document.Some? && h.authority(authority.document.value) == authority.pin
    && authority.document.value.valid
  }

  /** A paused plan is extended exactly on these terms. */
  lemma ExtendsOnTerms(h: Hashes, p: Plan, now: int, prepared: Pinned<Receipt>, paused: Pinned<Receipt>,
    authority: Pinned<Authority>, verified: bool)
    ensures ExtendPaused(h, p, now, prepared, paused, authority, verified).Success? <==>
      && verified && Pilot(p) && Bound(h, p, prepared, paused, Direct) && Authorised(h, authority)
      && var original, stopped, a := prepared.document.value, paused.document.value, authority.document.value;
         var started := original.observed.value;
        && a.executionId == p.executionId && a.prepared == prepared.pin && a.paused == paused.pin
        && 0 < a.maxSeconds <= 7200
        && started <= stopped.observed.value <= a.authorizedAt <= now < a.approvedUntil
        && started < a.originalUntil <= started + 5_400_000_000
        && a.originalUntil <= (started / 86_400_000_000 + 1) * 86_400_000_000
        && p.executionUntil == Some(a.originalUntil)
        && a.originalUntil < a.approvedUntil <= a.authorizedAt + a.maxSeconds * 1_000_000
        && SameDay(now, started) && SameDay(a.approvedUntil, started) && OnDay(p, started)
        && CapsFit(p, original.credit, now)
  {
    ReadsIff(h, prepared, Prepares);
    ReadsIff(h, paused, Pauses);
    PilotIff(p);
    if prepared.document.Some? {
      ResumeCapsIff(p, prepared.document.value, now);
    }
  }

  /** What an extension writes and states, taken from its authority. */
  lemma ExtensionStates(h: Hashes, p: Plan, now: int, prepared: Pinned<Receipt>, paused: Pinned<Receipt>,
    authority: Pinned<Authority>, verified: bool)
    requires ExtendPaused(h, p, now, prepared, paused, authority, verified).Success?
    ensures var a := authority.document.value;
      ExtendPaused(h, p, now, prepared, paused, authority, verified).value ==
        (SetUntil(a.approvedUntil),
         Lineage(h.plan(p), prepared.pin, paused.pin, authority.pin, a.authorizedAt, a.maxSeconds,
           a.originalUntil, a.approvedUntil, None, None, None, None))
  {
  }

  ghost predicate SecondAuthorised(h: Hashes, p: Plan, now: int, a: Authority, preparePin: string, pausePin: string,
    stoppedAt: int, previous: int, parentPin: string, earlier: Option<Pinned<Receipt>>)
  {
    var ceiling := if a.fiveHours then 18000 else 7200;
    && a.executionId == p.executionId && a.prepared == preparePin && a.paused == pausePin
    && a.previousExtension == Some(parentPin) && a.originalUntil == previous
    && 0 < a.maxSeconds <= ceiling && now < a.approvedUntil && SameDay(a.approvedUntil, now)
    && previous < a.approvedUntil <= a.authorizedAt + a.maxSeconds * 1_000_000
    && PausedFirst(h, p.executionId, h.plan(p), stoppedAt, a.authorizedAt, now, ceiling, earlier, None, false)
  }

  /** A plan is extended a second time exactly on these terms. */
  lemma ExtendsAgainOnTerms(h: Hashes, p: Plan, now: int, prepared: Pinned<Receipt>, paused: Pinned<Receipt>,
    authority: Pinned<Authority>, verified: bool, origin: Pinned<Receipt>, parent: Pinned<Receipt>,
    consumption: Pinned<Observation>, earlier: Option<Pinned<Receipt>>)
    ensures
      ExtendChain(
        h, p, now, prepared, paused, authority, verified, origin, parent, consumption, earlier).Success?
      <==>
      && verified && Authorised(h, authority)
      && Genuine(h, prepared, Prepares) && Genuine(h, paused, Pauses)
      && Genuine(h, origin, Pauses) && Genuine(h, parent, Extends)
      && var stopped, first := paused.document.value, parent.document.value;
        && Parent(h, p, now, prepared.document.value, stopped, origin.document.value, first, prepared.pin,
             origin.pin, consumption, false)
        && SecondAuthorised(h, p, now, authority.document.value, prepared.pin, paused.pin,
             stopped.observed.value, first.lineage.value.until, parent.pin, earlier)
  {
    ReadsIff(h, prepared, Prepares);
    ReadsIff(h, paused, Pauses);
    ReadsIff(h, origin, Pauses);
    ReadsIff(h, parent, Extends);
    if Genuine(h, prepared, Prepares) && Genuine(h, paused, Pauses) && Genuine(h, origin, Pauses)
       && Genuine(h, parent, Extends) && Authorised(h, authority)
    {
      var stopped, first := paused.document.value, parent.document.value;
      ParentIff(h, p, now, prepared.document.value, stopped, origin.document.value, first, prepared.pin,
        origin.pin, consumption, false);
      if stopped.observed.Some? && first.lineage.Some? {
        SecondAuthorisedIff(h, p, now, authority.document.value, prepared.pin, paused.pin,
          stopped.observed.value, first.lineage.value.until, parent.pin, earlier);
      }
    }
  }

  lemma SecondAuthorisedIff(h: Hashes, p: Plan, now: int, a: Authority, preparePin: string, pausePin: string,
    stoppedAt: int, previous: int, parentPin: string, earlier: Option<Pinned<Receipt>>)
    ensures ChainAuthorised(h, p, now, stoppedAt, previous, a, preparePin, pausePin, parentPin, earlier)
       <==> SecondAuthorised(h, p, now, a, preparePin, pausePin, stoppedAt, previous, parentPin, earlier)
  {
    PausedFirstIff(h, p.executionId, h.plan(p), stoppedAt, a.authorizedAt, now, ExtensionCeiling(a), earlier, None,
      false);
  }
}
