/**
 The pilot's budget document and how a prepare computes the caps of one execution:
 every cap is the least of what the plan holds and what is spent plus a fixed grant.
 Times are microseconds since the epoch, in UTC.
 */
module PilotPlan {
  import opened Prelude

  const SECOND: int := 1_000_000
  const DAY: int := 86400 * SECOND
  const EXECUTION_WINDOW: int := 90 * 60 * SECOND
  const TOTAL_GRANT: int := 2000
  const ATTEMPT_GRANT: int := 2500
  const MAINTENANCE_GRANT: int := 500
  const MAINTENANCE_SOURCE_GRANT: int := 300

  function Day(time: int): int {
    time / DAY
  }

  /** The midnight that closes a day. */
  function Closing(day: int): int {
    (day + 1) * DAY
  }

  datatype Source =
    | Orders | Questions | Shipments | Messages | ClaimsReturns | FullWithdrawals
    | Other(name: string)

  const SOURCES: seq<Source> := [Orders, Questions, Shipments, Messages, ClaimsReturns, FullWithdrawals]
  const INITIAL_SOURCES: seq<Source> := [Orders, Questions, Shipments, Messages, ClaimsReturns]

  const KNOWN: set<Source> := {Orders, Questions, Shipments, Messages, ClaimsReturns, FullWithdrawals}

  predicate Known(s: Source) {
    !s.Other?
  }

  /** The initial attempts one preparation grants a source. */
  function InitialGrant(s: Source): nat {
    match s
    case Orders => 800
    case Questions => 150
    case Shipments => 250
    case Messages => 300
    case ClaimsReturns => 500
    case _ => 0
  }

  datatype State = Active | Paused

  datatype Entry = Entry(physicalAttempts: int, consumed: int)

  datatype DailyPolicy = DailyPolicy(total: int, perSource: int)

  datatype DayField = NoDay | BadDay | On(day: int)

  /** Counters that the document may omit count from zero. */
  datatype Plan = Plan(
    identity: bool,
    state: State,
    eligible: bool,
    datesValid: bool,
    sources: seq<Source>,
    executionId: Option<string>,
    executionUntil: Option<int>,
    executionDay: Option<int>,
    totalBudget: int,
    totalConsumed: int,
    attemptLimit: Option<int>,
    executionConsumed: int,
    executionSent: int,
    budget: map<Source, Entry>,
    policy: Option<DailyPolicy>,
    incrementalDay: DayField,
    incrementalConsumed: int,
    incrementalSource: map<Source, int>,
    leaseUntil: Option<int>,
    leaseToken: bool)

  datatype Error =
    | InvalidCounterOrLimit
    | InvalidDatetime
    | PolicyIdentityMismatch
    | PolicyMissing
    | InvalidIncrementalDay
    | InvalidIncrementalCounters
    | SellerNotEligible
    | ExecutionIdRequired
    | ExecutionIdentityChanged
    | ExecutionDayChanged
    | InvalidSourceScope
    | EmptySourceScope
    | ExecutionWindowExpired
    | SourceBudgetMissing
    | RuntimeUnverified
    | ReceiptPin
    | ReceiptInvalid
    | PreparedPlanChanged
    | PreparedPlanNotPaused
    | ExecutionWindowOrLimit
    | ActiveLease
    | LeaseWithoutExpiry
    | PreparedCapsInvalid
    | SnapshotOrIdentity
    | StartingCreditUnknown
    | ResumeCapsInvalid
    | ExtensionWindowInvalid
    | ExtensionLineage
    | ExtensionCreditUnknown
    | ExtensionCreditIncreased
    | ConsumptionInvalid
    | ConsumptionDecreased
    | ChainParentInvalid
    | ChainFullExcluded
    | ChainAuthorityInvalid
    | PlanMissing
    | PlanChanged
    | AppliedReadbackChanged

  /** A counter or limit must be an integer that is not negative. */
  function Integer(value: int): Result<int, Error> {
    if value < 0 then Failure(InvalidCounterOrLimit) else Success(value)
  }

  // ---------------------------------------------------------------------------
  // Daily maintenance
  // ---------------------------------------------------------------------------

  datatype Maintenance = Maintenance(
    limit: int, sourceLimit: int, pending: bool, consumed: int, bySource: map<Source, int>)
  {
    /** Spent so far today; nothing when the daily rollover is still to come. */
    function Spent(): int {
      if pending then 0 else consumed
    }

    function SpentOn(s: Source): int {
      if pending || s !in bySource then 0 else bySource[s]
    }
  }

  function Counter(p: Plan, s: Source): int {
    if s in p.incrementalSource then p.incrementalSource[s] else 0
  }

  predicate CountsValid(p: Plan) {
    forall s | s in p.incrementalSource && Known(s) :: p.incrementalSource[s] >= 0
  }

  function Maintain(p: Plan, now: int): Result<Maintenance, Error> {
    if p.policy.None? then Failure(PolicyMissing)
    else
      var limit :- Integer(p.policy.value.total);
      var sourceLimit :- Integer(p.policy.value.perSource);
      if p.incrementalDay.BadDay? || (p.incrementalDay.On? && p.incrementalDay.day > Day(now)) then
        Failure(InvalidIncrementalDay)
      else
        var pending := p.incrementalDay != On(Day(now));
        var consumed :- Integer(p.incrementalConsumed);
        if !pending && p.incrementalSource.Keys != KNOWN then Failure(InvalidIncrementalCounters)
        else if !CountsValid(p) then Failure(InvalidCounterOrLimit)
        else Success(Maintenance(limit, sourceLimit, pending, consumed, p.incrementalSource))
  }

  // ---------------------------------------------------------------------------
  // Preparation
  // ---------------------------------------------------------------------------

  predicate ValidId(id: string) {
    |id| == 32 && forall c | c in id :: c in "0123456789abcdef"
  }

  predicate Distinct(s: seq<Source>) {
    forall i, j | 0 <= i < j < |s| :: s[i] != s[j]
  }

  /** The members of a list that are in scope, in the order of the list. */
  function Scoped(list: seq<Source>, scope: seq<Source>): (r: seq<Source>)
    ensures forall s :: s in r <==> s in list && s in scope
  {
    if list == [] then []
    else (if list[0] in scope then [list[0]] else []) + Scoped(list[1..], scope)
  }

  predicate ValidScope(sources: seq<Source>) {
    (forall s | s in sources :: Known(s)) && Distinct(sources)
  }

  /** The least maintenance allowance over the scoped sources. */
  function Allowance(scoped: seq<Source>, m: Maintenance): (r: int)
    requires scoped != []
    ensures exists s | s in scoped :: r == m.SpentOn(s) + MAINTENANCE_SOURCE_GRANT
    ensures forall s | s in scoped :: r <= m.SpentOn(s) + MAINTENANCE_SOURCE_GRANT
  {
    var first := m.SpentOn(scoped[0]) + MAINTENANCE_SOURCE_GRANT;
    if |scoped| == 1 then first else Min(first, Allowance(scoped[1..], m))
  }

  /** What a preparation writes. */
  datatype Caps = Caps(
    sources: seq<Source>,
    executionId: string,
    until: int,
    day: int,
    totalBudget: int,
    attemptLimit: int,
    attempts: map<Source, int>,
    daily: DailyPolicy)

  datatype Patch = Prepared(caps: Caps) | SetState(state: State) | SetUntil(until: int)

  /** The first reason, in source order, why the attempts of the sources cannot be capped. */
  function BudgetError(p: Plan, sources: seq<Source>): (e: Option<Error>)
    ensures e.None? <==> forall s | s in sources :: s in p.budget && EntryValid(p.budget[s])
  {
    if sources == [] then None
    else if sources[0] !in p.budget then Some(SourceBudgetMissing)
    else if !EntryValid(p.budget[sources[0]]) then Some(InvalidCounterOrLimit)
    else BudgetError(p, sources[1..])
  }

  predicate EntryValid(e: Entry) {
    e.physicalAttempts >= 0 && e.consumed >= 0
  }

  lemma BudgetKnown(p: Plan)
    ensures BudgetError(p, SOURCES).None? <==> forall s | Known(s) :: s in p.budget && EntryValid(p.budget[s])
  {
    assert forall s :: Known(s) <==> s in SOURCES;
  }

  function CapAttempts(p: Plan): map<Source, int> {
    map s | s in p.budget && Known(s) :: Min(p.budget[s].physicalAttempts, p.budget[s].consumed + InitialGrant(s))
  }

  function Deadline(p: Plan, now: int): int {
    var until := Min(now + EXECUTION_WINDOW, Closing(Day(now)));
    if p.executionUntil.Some? then Min(until, p.executionUntil.value) else until
  }

  /** Why a plan cannot be prepared, among the reasons that concern who, when and which sources. */
  function Unpreparable(p: Plan, now: int, id: Option<string>): Option<Error> {
    if !p.eligible then Some(SellerNotEligible)
    else if id.None? || !ValidId(id.value) then Some(ExecutionIdRequired)
    else if p.executionId.Some? && p.executionId != id then Some(ExecutionIdentityChanged)
    else if p.executionDay.Some? && p.executionDay.value != Day(now) then Some(ExecutionDayChanged)
    else if !p.datesValid then Some(InvalidDatetime)
    else if !ValidScope(p.sources) then Some(InvalidSourceScope)
    else if Scoped(INITIAL_SOURCES, p.sources) == [] then Some(EmptySourceScope)
    else if Deadline(p, now) <= now then Some(ExecutionWindowExpired)
    else None
  }

  function Ceiling(p: Plan): int {
    p.executionConsumed + ATTEMPT_GRANT
  }

  function AttemptLimit(p: Plan): int {
    if p.attemptLimit.Some? then p.attemptLimit.value else Ceiling(p)
  }

  /** Why the totals of a plan cannot be capped. */
  function TotalsError(p: Plan): Option<Error> {
    if p.totalConsumed < 0 || p.executionConsumed < 0 || p.totalBudget < 0 || AttemptLimit(p) < 0 then
      Some(InvalidCounterOrLimit)
    else None
  }

  predicate Preparable(p: Plan, now: int, id: Option<string>) {
    Unpreparable(p, now, id).None? && TotalsError(p).None? && BudgetError(p, SOURCES).None?
  }

  function CapsFor(p: Plan, now: int, id: string, m: Maintenance): Caps
    requires Preparable(p, now, Some(id))
  {
    var scoped := Scoped(INITIAL_SOURCES, p.sources);
    Caps(
      scoped, id, Deadline(p, now), Day(now),
      Min(p.totalBudget, p.totalConsumed + TOTAL_GRANT),
      Min(AttemptLimit(p), Ceiling(p)),
      CapAttempts(p),
      DailyPolicy(Min(m.limit, m.Spent() + MAINTENANCE_GRANT), Min(m.sourceLimit, Allowance(scoped, m))))
  }

  function Prepare(p: Plan, now: int, id: Option<string>): Result<Patch, Error> {
    if Unpreparable(p, now, id).Some? then Failure(Unpreparable(p, now, id).value)
    else if TotalsError(p).Some? then Failure(TotalsError(p).value)
    else if BudgetError(p, SOURCES).Some? then Failure(BudgetError(p, SOURCES).value)
    else
      var m :- Maintain(p, now);
      Success(Prepared(CapsFor(p, now, id.value, m)))
  }

  function Capped(e: Entry, attempts: int): Entry {
    e.(physicalAttempts := attempts)
  }

  function Patched(p: Plan, patch: Patch): Plan {
    match patch
    case SetState(state) => p.(state := state)
    case SetUntil(until) => p.(executionUntil := Some(until))
    case Prepared(c) =>
      p.(state := Paused,
         sources := c.sources,
         executionId := Some(c.executionId),
         executionUntil := Some(c.until),
         executionDay := Some(c.day),
         totalBudget := c.totalBudget,
         attemptLimit := Some(c.attemptLimit),
         budget := map s | s in p.budget ::
           if s in c.attempts then Capped(p.budget[s], c.attempts[s]) else p.budget[s],
         policy := Some(c.daily))
  }

  // ---------------------------------------------------------------------------
  // What a preparation establishes
  // ---------------------------------------------------------------------------

  ghost predicate EntryTight(p: Plan, s: Source) {
    Known(s) ==>
      && s in p.budget
      && 0 <= p.budget[s].physicalAttempts <= p.budget[s].consumed + InitialGrant(s)
      && 0 <= p.budget[s].consumed
  }

  /** What maintenance has spent on the execution day: nothing before the rollover. */
  function DaySpent(p: Plan, day: int): int {
    if p.incrementalDay == On(day) then p.incrementalConsumed else 0
  }

  function DaySpentOn(p: Plan, day: int, s: Source): int {
    if p.incrementalDay == On(day) then Counter(p, s) else 0
  }

  ghost predicate MaintenanceTight(p: Plan, day: int) {
    && p.policy.Some?
    && 0 <= p.policy.value.total <= DaySpent(p, day) + MAINTENANCE_GRANT
    && 0 <= p.policy.value.perSource
    && (forall s | s in p.sources :: p.policy.value.perSource <= DaySpentOn(p, day, s) + MAINTENANCE_SOURCE_GRANT)
    && 0 <= p.incrementalConsumed && CountsValid(p)
    && !p.incrementalDay.BadDay? && (p.incrementalDay.On? ==> p.incrementalDay.day <= day)
    && (p.incrementalDay == On(day) ==> p.incrementalSource.Keys == KNOWN)
  }

  /** The deadline is on the execution day. */
  ghost predicate WindowTight(p: Plan) {
    && p.executionDay.Some? && p.executionUntil.Some?
    && p.executionUntil.value <= Closing(p.executionDay.value)
  }

  ghost predicate ScopeTight(p: Plan) {
    && p.executionId.Some? && ValidId(p.executionId.value)
    && p.datesValid
    && p.sources != [] && p.sources == Scoped(INITIAL_SOURCES, p.sources)
  }

  ghost predicate TotalsTight(p: Plan) {
    && 0 <= p.totalConsumed && 0 <= p.totalBudget <= p.totalConsumed + TOTAL_GRANT
    && 0 <= p.executionConsumed
    && p.attemptLimit.Some? && 0 <= p.attemptLimit.value <= p.executionConsumed + ATTEMPT_GRANT
  }

  ghost predicate BudgetTight(p: Plan) {
    forall s :: EntryTight(p, s)
  }

  /** Every cap of the plan is within the grant of one preparation. */
  ghost predicate Tight(p: Plan) {
    && ScopeTight(p)
    && WindowTight(p)
    && TotalsTight(p)
    && BudgetTight(p)
    && MaintenanceTight(p, p.executionDay.value)
  }

  lemma ScopedAgain(list: seq<Source>, scope: seq<Source>, scope': seq<Source>)
    requires forall s | s in list :: s in scope <==> s in scope'
    ensures Scoped(list, scope) == Scoped(list, scope')
  {
  }

  lemma {:induction false} ScopedDistinct(list: seq<Source>, scope: seq<Source>)
    requires Distinct(list)
    ensures Distinct(Scoped(list, scope))
  {
    if list != [] {
      ScopedDistinct(list[1..], scope);
      forall s | s in Scoped(list[1..], scope) ensures s != list[0] {
        var i :| 0 <= i < |list[1..]| && list[1..][i] == s;
      }
    }
  }

  lemma InitialSourcesDistinct(scope: seq<Source>)
    ensures ValidScope(Scoped(INITIAL_SOURCES, scope))
  {
    ScopedDistinct(INITIAL_SOURCES, scope);
  }

  /** The cap on one source's attempts comes from its entry and its grant. */
  ghost predicate CappedAt(p: Plan, c: Caps, s: Source) {
    Known(s) ==>
      && s in p.budget && EntryValid(p.budget[s])
      && s in c.attempts
      && c.attempts[s] == Min(p.budget[s].physicalAttempts, p.budget[s].consumed + InitialGrant(s))
  }

  ghost predicate BudgetCapped(p: Plan, c: Caps) {
    forall s :: CappedAt(p, c, s)
  }

  /** How prepared caps come from a plan and its maintenance record. */
  ghost predicate CappedFrom(p: Plan, now: int, c: Caps, m: Maintenance) {
    && BudgetCapped(p, c)
    && Maintain(p, now) == Success(m)
    && c.sources != [] && c.sources == Scoped(INITIAL_SOURCES, p.sources)
    && c.until == Deadline(p, now)
    && c.totalBudget == Min(p.totalBudget, p.totalConsumed + TOTAL_GRANT)
    && c.attemptLimit == Min(AttemptLimit(p), Ceiling(p))
    && c.daily == DailyPolicy(Min(m.limit, m.Spent() + MAINTENANCE_GRANT), Min(m.sourceLimit, Allowance(c.sources, m)))
  }

  lemma AttemptsCapped(p: Plan, c: Caps)
    requires BudgetError(p, SOURCES).None? && c.attempts == CapAttempts(p)
    ensures BudgetCapped(p, c)
  {
    BudgetKnown(p);
    forall s ensures CappedAt(p, c, s) {
    }
  }

  lemma PreparedFrom(p: Plan, now: int, id: Option<string>, patch: Patch) returns (m: Maintenance)
    requires Prepare(p, now, id) == Success(patch)
    ensures patch.Prepared? && CappedFrom(p, now, patch.caps, m)
  {
    m := Maintain(p, now).value;
    AttemptsCapped(p, patch.caps);
  }

  lemma CapsTightenMaintenance(p: Plan, now: int, c: Caps, m: Maintenance)
    requires Maintain(p, now) == Success(m) && c.sources != []
    requires c.daily == DailyPolicy(Min(m.limit, m.Spent() + MAINTENANCE_GRANT),
      Min(m.sourceLimit, Allowance(c.sources, m)))
    requires forall s | s in c.sources :: Known(s)
    ensures MaintenanceTight(Patched(p, Prepared(c)), Day(now))
  {
    var q := Patched(p, Prepared(c));
    assert DaySpent(q, Day(now)) == m.Spent();
    forall s | s in q.sources
      ensures q.policy.value.perSource <= DaySpentOn(q, Day(now), s) + MAINTENANCE_SOURCE_GRANT
    {
      assert m.SpentOn(s) == DaySpentOn(p, Day(now), s);
    }
  }

  lemma CapsTightenBudget(p: Plan, c: Caps)
    requires BudgetCapped(p, c)
    ensures BudgetTight(Patched(p, Prepared(c)))
  {
    forall s ensures EntryTight(Patched(p, Prepared(c)), s) {
      assert CappedAt(p, c, s);
    }
  }

  lemma CapsTightenScope(p: Plan, now: int, id: string, m: Maintenance)
    requires Preparable(p, now, Some(id))
    ensures ScopeTight(Patched(p, Prepared(CapsFor(p, now, id, m))))
  {
    ScopedAgain(INITIAL_SOURCES, p.sources, Scoped(INITIAL_SOURCES, p.sources));
  }

  lemma CapsTightenTotals(p: Plan, now: int, id: string, m: Maintenance)
    requires Preparable(p, now, Some(id))
    ensures var q := Patched(p, Prepared(CapsFor(p, now, id, m)));
      WindowTight(q) && TotalsTight(q) && q.executionDay == Some(Day(now))
  {
  }

  /** A successful preparation leaves every cap within one grant. */
  lemma PrepareTightens(p: Plan, now: int, id: Option<string>, patch: Patch)
    requires Prepare(p, now, id) == Success(patch)
    ensures patch.Prepared? && Tight(Patched(p, patch)) && Patched(p, patch).executionDay == Some(Day(now))
  {
    var m := Maintain(p, now).value;
    AttemptsCapped(p, patch.caps);
    CapsTightenMaintenance(p, now, patch.caps, m);
    CapsTightenBudget(p, patch.caps);
    CapsTightenScope(p, now, id.value, m);
    CapsTightenTotals(p, now, id.value, m);
  }

  /** When a plan whose caps are tight can be prepared again. */
  predicate OpenWindow(p: Plan, now: int) {
    && p.eligible
    && p.executionDay == Some(Day(now))
    && p.executionUntil.Some? && now < p.executionUntil.value <= now + EXECUTION_WINDOW
  }

  lemma TightMaintenance(p: Plan, now: int, scoped: seq<Source>)
    requires MaintenanceTight(p, Day(now)) && scoped == p.sources != []
    ensures Maintain(p, now).Success?
    ensures var m := Maintain(p, now).value;
      p.policy == Some(DailyPolicy(Min(m.limit, m.Spent() + MAINTENANCE_GRANT),
        Min(m.sourceLimit, Allowance(scoped, m))))
  {
    var m := Maintain(p, now).value;
    var s :| s in scoped && Allowance(scoped, m) == m.SpentOn(s) + MAINTENANCE_SOURCE_GRANT;
    assert m.SpentOn(s) == DaySpentOn(p, Day(now), s);
  }

  lemma TightBudget(p: Plan)
    requires BudgetTight(p)
    ensures BudgetError(p, SOURCES).None?
    ensures forall s | Known(s) :: CapAttempts(p)[s] == p.budget[s].physicalAttempts
  {
    forall s | Known(s) ensures s in p.budget && EntryValid(p.budget[s]) {
      assert EntryTight(p, s);
    }
    forall s | Known(s) ensures CapAttempts(p)[s] == p.budget[s].physicalAttempts {
      assert EntryTight(p, s);
    }
  }

  lemma TightIsPreparable(p: Plan, now: int)
    requires Tight(p) && OpenWindow(p, now)
    ensures Preparable(p, now, p.executionId)
  {
    InitialSourcesDistinct(p.sources);
    TightBudget(p);
  }

  lemma SameBudget(p: Plan, c: Caps)
    requires forall s | Known(s) :: s in p.budget && s in c.attempts && c.attempts[s] == p.budget[s].physicalAttempts
    requires forall s | s in c.attempts :: Known(s)
    ensures Patched(p, Prepared(c)).budget == p.budget
  {
  }

  /**
   Preparation is idempotent over time: on a plan whose caps are tight, preparing again
   within the window changes nothing but the state, however much was spent in between.
   */
  lemma PreparingAgainOnlyPauses(p: Plan, now: int)
    requires Tight(p) && OpenWindow(p, now)
    ensures Prepare(p, now, p.executionId).Success?
    ensures Patched(p, Prepare(p, now, p.executionId).value) == p.(state := Paused)
  {
    TightIsPreparable(p, now);
    TightMaintenance(p, now, p.sources);
    TightBudget(p);
    var c := CapsFor(p, now, p.executionId.value, Maintain(p, now).value);
    SameBudget(p, c);
    assert Prepare(p, now, p.executionId) == Success(Prepared(c));
  }

  lemma TightWhateverState(p: Plan, state: State)
    ensures Tight(p.(state := state)) <==> Tight(p)
  {
    var q := p.(state := state);
    assert forall s :: EntryTight(q, s) <==> EntryTight(p, s);
    assert CountsValid(q) <==> CountsValid(p);
  }

  /** Only plans with tight caps are left alone by a preparation. */
  lemma LeftAloneIsTight(p: Plan, now: int, id: Option<string>, patch: Patch)
    requires Prepare(p, now, id) == Success(patch) && Patched(p, patch) == p.(state := Paused)
    ensures Tight(p)
  {
    PrepareTightens(p, now, id, patch);
    TightWhateverState(p, Paused);
  }

  // ---------------------------------------------------------------------------
  // Comparing caps
  // ---------------------------------------------------------------------------

  /** An absent cap bounds nothing. */
  predicate AtMost(a: Option<int>, b: Option<int>) {
    b.None? || (a.Some? && a.value <= b.value)
  }

  ghost predicate EntryNotAbove(q: Plan, p: Plan, s: Source) {
    Known(s) ==> s in q.budget && s in p.budget && q.budget[s].physicalAttempts <= p.budget[s].physicalAttempts
  }

  /** No budget, limit or daily allowance of the first plan is above the second's. */
  ghost predicate NoCapAbove(q: Plan, p: Plan) {
    && q.totalBudget <= p.totalBudget
    && AtMost(q.attemptLimit, p.attemptLimit)
    && (forall s :: EntryNotAbove(q, p, s))
    && q.policy.Some? && p.policy.Some?
    && q.policy.value.total <= p.policy.value.total
    && q.policy.value.perSource <= p.policy.value.perSource
  }

  ghost predicate SameConsumed(q: Plan, p: Plan, s: Source) {
    s in p.budget ==> s in q.budget && q.budget[s].consumed == p.budget[s].consumed
  }

  ghost predicate SameCounters(q: Plan, p: Plan) {
    && q.totalConsumed == p.totalConsumed && q.executionConsumed == p.executionConsumed
    && q.incrementalDay == p.incrementalDay && q.incrementalConsumed == p.incrementalConsumed
    && q.incrementalSource == p.incrementalSource
    && forall s :: SameConsumed(q, p, s)
  }

  lemma CapsRaiseNothing(p: Plan, c: Caps)
    requires BudgetCapped(p, c)
    requires c.totalBudget <= p.totalBudget && AtMost(Some(c.attemptLimit), p.attemptLimit)
    requires p.policy.Some? && c.daily.total <= p.policy.value.total && c.daily.perSource <= p.policy.value.perSource
    ensures NoCapAbove(Patched(p, Prepared(c)), p)
  {
    forall s ensures EntryNotAbove(Patched(p, Prepared(c)), p, s) {
      assert CappedAt(p, c, s);
    }
  }

  lemma CapsKeepCounters(p: Plan, c: Caps)
    ensures SameCounters(Patched(p, Prepared(c)), p)
  {
    forall s ensures SameConsumed(Patched(p, Prepared(c)), p, s) {
    }
  }

  /** Preparing raises no cap, and never moves the deadline back. */
  lemma PrepareRaisesNothing(p: Plan, now: int, id: Option<string>, patch: Patch)
    requires Prepare(p, now, id) == Success(patch)
    ensures NoCapAbove(Patched(p, patch), p) && SameCounters(Patched(p, patch), p)
    ensures AtMost(Patched(p, patch).executionUntil, p.executionUntil)
  {
    var m := PreparedFrom(p, now, id, patch);
    CapsRaiseNothing(p, patch.caps);
    CapsKeepCounters(p, patch.caps);
  }

  lemma LargestDaily(p: Plan, q: Plan, now: int, m: Maintenance)
    requires Maintain(p, now) == Success(m) && MaintenanceTight(q, Day(now)) && SameCounters(q, p)
    requires q.sources != [] && forall s | s in q.sources :: Known(s)
    ensures q.policy.value.total <= m.Spent() + MAINTENANCE_GRANT
    ensures q.policy.value.perSource <= Allowance(q.sources, m)
  {
    var allowance := Allowance(q.sources, m);
    var s :| s in q.sources && allowance == m.SpentOn(s) + MAINTENANCE_SOURCE_GRANT;
    assert m.SpentOn(s) == DaySpentOn(q, Day(now), s);
  }

  lemma LargestBudget(p: Plan, c: Caps, q: Plan)
    requires BudgetCapped(p, c) && BudgetTight(q)
    requires SameCounters(q, p) && NoCapAbove(q, p)
    ensures forall s :: EntryNotAbove(q, Patched(p, Prepared(c)), s)
  {
    forall s ensures EntryNotAbove(q, Patched(p, Prepared(c)), s) {
      assert CappedAt(p, c, s) && EntryTight(q, s) && EntryNotAbove(q, p, s) && SameConsumed(q, p, s);
    }
  }

  lemma LargestCaps(p: Plan, now: int, c: Caps, m: Maintenance, q: Plan)
    requires CappedFrom(p, now, c, m)
    requires TotalsTight(q) && BudgetTight(q) && MaintenanceTight(q, Day(now))
    requires SameCounters(q, p) && NoCapAbove(q, p)
    requires q.sources == c.sources
    ensures NoCapAbove(q, Patched(p, Prepared(c)))
  {
    LargestDaily(p, q, now, m);
    LargestBudget(p, c, q);
  }

  /**
   A preparation takes no more than it must: among the caps that are tight for the same
   counters and scope and that raise nothing, the prepared ones are the largest.
   */
  lemma PreparedCapsAreLargest(p: Plan, now: int, id: Option<string>, patch: Patch, q: Plan)
    requires Prepare(p, now, id) == Success(patch)
    requires Tight(q) && q.executionDay == Some(Day(now)) && SameCounters(q, p) && NoCapAbove(q, p)
    requires q.sources == patch.caps.sources
    ensures NoCapAbove(q, Patched(p, patch))
  {
    var m := PreparedFrom(p, now, id, patch);
    LargestCaps(p, now, patch.caps, m, q);
  }

  ghost predicate FreshScope(p: Plan) {
    && p.eligible && p.datesValid && p.sources != [] && p.sources == Scoped(INITIAL_SOURCES, p.sources)
    && p.executionId.None? && p.executionUntil.None? && p.executionDay.None?
  }

  ghost predicate FreshEntry(p: Plan, s: Source) {
    Known(s) ==> s in p.budget && p.budget[s].consumed == 0 && p.budget[s].physicalAttempts >= InitialGrant(s)
  }

  ghost predicate FreshDaily(p: Plan) {
    && p.policy.Some? && p.policy.value.total >= MAINTENANCE_GRANT
      && p.policy.value.perSource >= MAINTENANCE_SOURCE_GRANT
    && p.incrementalDay.NoDay? && p.incrementalConsumed >= 0 && CountsValid(p)
  }

  /** A plan that was never prepared, has spent nothing and is budgeted for at least one grant. */
  ghost predicate Fresh(p: Plan) {
    && FreshScope(p) && FreshDaily(p)
    && p.totalConsumed == 0 && p.totalBudget >= TOTAL_GRANT
    && p.executionConsumed == 0 && p.attemptLimit.None?
    && forall s :: FreshEntry(p, s)
  }

  lemma FreshCanBePrepared(p: Plan, now: int, id: string)
    requires FreshScope(p) && ValidId(id)
    ensures Unpreparable(p, now, Some(id)).None?
  {
    InitialSourcesDistinct(p.sources);
  }

  lemma FreshBudget(p: Plan)
    requires forall s :: FreshEntry(p, s)
    ensures BudgetError(p, SOURCES).None?
    ensures forall s | Known(s) :: s in CapAttempts(p) && CapAttempts(p)[s] == InitialGrant(s)
  {
    forall s | Known(s) ensures s in p.budget && EntryValid(p.budget[s]) {
      assert FreshEntry(p, s);
    }
    BudgetKnown(p);
    forall s | Known(s) ensures s in CapAttempts(p) && CapAttempts(p)[s] == InitialGrant(s) {
      assert FreshEntry(p, s);
    }
  }

  lemma FreshMaintenance(p: Plan, now: int) returns (m: Maintenance)
    requires FreshDaily(p) && p.sources != []
    ensures Maintain(p, now) == Success(m) && m.pending
    ensures m.limit >= MAINTENANCE_GRANT && m.sourceLimit >= MAINTENANCE_SOURCE_GRANT
    ensures Allowance(p.sources, m) == MAINTENANCE_SOURCE_GRANT
  {
    m := Maintain(p, now).value;
    var allowance := Allowance(p.sources, m);
    var s :| s in p.sources && allowance == m.SpentOn(s) + MAINTENANCE_SOURCE_GRANT;
  }

  /** A fresh plan can be prepared at any time, and its first preparation is granted in full. */
  lemma FreshPlansGetTheWholeGrant(p: Plan, now: int, id: string) returns (c: Caps)
    requires Fresh(p) && ValidId(id)
    ensures Prepare(p, now, Some(id)) == Success(Prepared(c))
    ensures c.sources == p.sources && c.totalBudget == TOTAL_GRANT && c.attemptLimit == ATTEMPT_GRANT
    ensures c.daily == DailyPolicy(MAINTENANCE_GRANT, MAINTENANCE_SOURCE_GRANT)
    ensures c.until == Min(now + EXECUTION_WINDOW, Closing(Day(now)))
    ensures forall s | Known(s) :: s in c.attempts && c.attempts[s] == InitialGrant(s)
  {
    FreshCanBePrepared(p, now, id);
    FreshBudget(p);
    var m := FreshMaintenance(p, now);
    assert TotalsError(p).None?;
    c := CapsFor(p, now, id, m);
  }
}
