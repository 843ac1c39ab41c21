/**
 The control actions on the pilot: what each checks before it may change the plan, which
 receipt it demands, and the whole-document compare-and-swap that writes the change.
 */
module PilotControl {
  import opened Prelude
  import opened PilotPlan

  datatype Action = Prepares | Pauses | Activates | Resumes | Extends

  /** What is left to spend, as a receipt records it. */
  datatype Credit = Credit(
    initial: map<Source, int>,
    pending: bool,
    maintenance: Option<int>,
    bySource: Option<map<Source, int>>,
    natural: Option<DailyPolicy>)

  /** How an extension receipt names the documents it rests on, by their digests. */
  datatype Lineage = Lineage(
    previousPlan: string,
    preparedReceipt: string,
    pausedReceipt: string,
    authority: string,
    authorizedAt: int,
    maxSeconds: int,
    previousUntil: int,
    until: int,
    previousExtension: Option<string>,
    originalPaused: Option<string>,
    ceiling: Option<int>,
    preAuthorization: Option<string>)

  /** A receipt of one action; `plan` is the digest of the plan it resulted in. */
  datatype Receipt = Receipt(
    action: Action,
    applied: bool,
    seller: bool,
    policyVersion: bool,
    executionId: Option<string>,
    observed: Option<int>,
    plan: string,
    state: State,
    credit: Option<Credit>,
    lineage: Option<Lineage>)

  /** A user's permission to extend; `valid` stands for its fixed statements. */
  datatype Authority = Authority(
    valid: bool,
    executionId: Option<string>,
    prepared: string,
    paused: string,
    authorizedAt: int,
    originalUntil: int,
    approvedUntil: int,
    maxSeconds: int,
    previousExtension: Option<string>,
    fiveHours: bool)

  /** A document as presented: its content, if it could be read, and the digest it is pinned by. */
  datatype Pinned<T> = Pinned(document: Option<T>, pin: string)

  /** A paused readback of the counters; `passed` stands for its fixed statements. */
  datatype Observation = Observation(
    passed: bool, baseline: Pinned<Receipt>, charged: int, sent: int, maintenance: int, ended: int)

  /** The digests; nothing here depends on how they are computed. */
  datatype Hashes = Hashes(
    plan: Plan -> string,
    receipt: Receipt -> string,
    authority: Authority -> string,
    observation: Observation -> string)

  /** Distinct plans have distinct digests. */
  ghost predicate PlansDistinguished(h: Hashes) {
    forall p, q :: h.plan(p) == h.plan(q) ==> p == q
  }

  predicate PinHolds(h: Hashes, presented: Pinned<Receipt>) {
    presented.document.Some? && h.receipt(presented.document.value) == presented.pin
  }

  function ReadReceipt(h: Hashes, presented: Pinned<Receipt>, action: Action): Result<Receipt, Error> {
    if !PinHolds(h, presented) then Failure(ReceiptPin)
    else
      var r := presented.document.value;
      if r.action != action || !r.applied || !r.seller || !r.policyVersion then Failure(ReceiptInvalid)
      else Success(r)
  }

  // ---------------------------------------------------------------------------
  // Gates shared by the actions
  // ---------------------------------------------------------------------------

  /** The limits every charge is also subject to. */
  predicate ExecutionAllowed(p: Plan, now: int) {
    && (p.executionUntil.Some? ==> now < p.executionUntil.value)
    && (p.executionDay.Some? ==> p.executionDay.value == Day(now))
    && (p.attemptLimit.Some? ==> 0 <= p.executionConsumed < p.attemptLimit.value)
  }

  function LeaseError(p: Plan, now: int): Option<Error> {
    if p.leaseUntil.Some? then if p.leaseUntil.value > now then Some(ActiveLease) else None
    else if p.leaseToken then Some(LeaseWithoutExpiry)
    else None
  }

  function Remaining(e: Entry): int {
    Max(0, e.physicalAttempts - e.consumed)
  }

  function InitialRemaining(p: Plan): map<Source, int> {
    map s | s in p.budget && s in INITIAL_SOURCES :: Remaining(p.budget[s])
  }

  /** The credit a receipt states for a plan. */
  function Summary(p: Plan, now: int): Result<Credit, Error> {
    if BudgetError(p, INITIAL_SOURCES).Some? then Failure(BudgetError(p, INITIAL_SOURCES).value)
    else
      var m :- Maintain(p, now);
      Success(Credit(
        InitialRemaining(p), m.pending,
        if m.pending then None else Some(Max(0, m.limit - m.consumed)),
        if m.pending then None else
          Some(map s | s in KNOWN && s in INITIAL_SOURCES :: Max(0, m.sourceLimit - m.SpentOn(s))),
        if m.pending then Some(DailyPolicy(m.limit, m.sourceLimit)) else None))
  }

  // ---------------------------------------------------------------------------
  // Activation
  // ---------------------------------------------------------------------------

  predicate BindsPlan(h: Hashes, r: Receipt, p: Plan) {
    && r.action.Prepares? && r.applied && r.seller
    && r.executionId == p.executionId && r.plan == h.plan(p)
  }

  function Activate(h: Hashes, p: Plan, now: int, prepared: Pinned<Receipt>, verified: bool): Result<Patch, Error> {
    if !verified then Failure(RuntimeUnverified)
    else if !PinHolds(h, prepared) then Failure(ReceiptPin)
    else if !BindsPlan(h, prepared.document.value, p) then Failure(PreparedPlanChanged)
    else if !p.state.Paused? || !p.eligible then Failure(PreparedPlanNotPaused)
    else if p.executionDay != Some(Day(now)) || !ExecutionAllowed(p, now) then Failure(ExecutionWindowOrLimit)
    else if LeaseError(p, now).Some? then Failure(LeaseError(p, now).value)
    else
      var expected :- Prepare(p, now, p.executionId);
      if Patched(p, expected) != p.(state := Paused) then Failure(PreparedCapsInvalid)
      else Success(SetState(Active))
  }

  predicate ReadyToRun(p: Plan, now: int) {
    && p.state.Paused? && p.eligible
    && p.executionDay == Some(Day(now)) && ExecutionAllowed(p, now)
    && LeaseError(p, now).None?
  }

  /**
   A plan whose caps are tight activates exactly when the pinned receipt is the one of its
   own preparation and the window, the limit and the lease allow it: the caps check itself
   never refuses such a plan inside the window.
   */
  lemma ActivatesIff(h: Hashes, p: Plan, now: int, prepared: Pinned<Receipt>, verified: bool)
    requires Tight(p) && (p.executionUntil.value <= now + EXECUTION_WINDOW)
    ensures Activate(h, p, now, prepared, verified).Success?
       <==> verified && PinHolds(h, prepared) && BindsPlan(h, prepared.document.value, p) && ReadyToRun(p, now)
  {
    if ReadyToRun(p, now) {
      PreparingAgainOnlyPauses(p, now);
    }
  }

  /** Nothing else can be activated: limits wider than one grant are refused. */
  lemma ActivatesOnlyTight(h: Hashes, p: Plan, now: int, prepared: Pinned<Receipt>, verified: bool)
    requires Activate(h, p, now, prepared, verified).Success?
    ensures Tight(p) && p.executionUntil.Some? && now < p.executionUntil.value <= now + EXECUTION_WINDOW
  {
    var patch := Prepare(p, now, p.executionId).value;
    LeftAloneIsTight(p, now, p.executionId, patch);
    var m := PreparedFrom(p, now, p.executionId, patch);
  }

  /** The activated plan is the very plan the receipt's preparation resulted in. */
  lemma ActivatesThePreparedPlan(
    h: Hashes, p: Plan, now: int, prepared: Pinned<Receipt>, verified: bool, q: Plan)
    requires PlansDistinguished(h)
    requires Activate(h, p, now, prepared, verified).Success?
    requires prepared.document.value.plan == h.plan(q)
    ensures p == q
  {
  }

  // ---------------------------------------------------------------------------
  // Resuming
  // ---------------------------------------------------------------------------

  /** The first reason, in source order, why the attempts exceed what was left at the start. */
  function AttemptsError(p: Plan, remaining: map<Source, int>, sources: seq<Source>): (e: Option<Error>)
    requires forall s | s in sources :: s in remaining
    ensures e.None? <==> forall s | s in sources ::
      s in p.budget && EntryValid(p.budget[s]) && WithinStart(p.budget[s], remaining[s], InitialGrant(s))
  {
    if sources == [] then None
    else
      var s := sources[0];
      if s !in p.budget then Some(SourceBudgetMissing)
      else if remaining[s] < 0 || !EntryValid(p.budget[s]) then Some(InvalidCounterOrLimit)
      else if !WithinStart(p.budget[s], remaining[s], InitialGrant(s)) then Some(ResumeCapsInvalid)
      else AttemptsError(p, remaining, sources[1..])
  }

  predicate WithinStart(e: Entry, remaining: int, grant: int) {
    0 <= remaining <= grant && e.consumed <= e.physicalAttempts <= remaining
  }

  function Total(remaining: map<Source, int>, sources: seq<Source>): int
    requires forall s | s in sources :: s in remaining
  {
    if sources == [] then 0 else remaining[sources[0]] + Total(remaining, sources[1..])
  }

  predicate TotalsWithin(p: Plan, total: int) {
    && 0 <= p.totalConsumed <= p.totalBudget <= total
    && p.attemptLimit.Some?
    && 0 <= p.executionSent <= p.executionConsumed < p.attemptLimit.value <= ATTEMPT_GRANT
  }

  predicate DailyWithin(p: Plan, natural: DailyPolicy) {
    && p.policy.Some?
    && p.policy.value.total <= Min(natural.total, MAINTENANCE_GRANT)
    && p.policy.value.perSource <= Min(natural.perSource, MAINTENANCE_SOURCE_GRANT)
  }

  predicate StartKnown(original: Receipt) {
    && original.credit.Some?
    && original.credit.value.initial.Keys == (set s | s in KNOWN && s in INITIAL_SOURCES)
    && original.credit.value.pending
    && original.credit.value.natural.Some?
  }

  function FullWithdrawalsError(p: Plan): Option<Error> {
    if FullWithdrawals !in p.budget then Some(SourceBudgetMissing)
    else if !EntryValid(p.budget[FullWithdrawals]) then Some(InvalidCounterOrLimit)
    else if p.budget[FullWithdrawals].physicalAttempts > p.budget[FullWithdrawals].consumed then Some(ResumeCapsInvalid)
    else None
  }

  /** Why a plan may not run on with the caps it holds. */
  function ResumeCapsError(p: Plan, original: Receipt, now: int): Option<Error> {
    if !StartKnown(original) then Some(StartingCreditUnknown)
    else
      var remaining := original.credit.value.initial;
      var attempts := AttemptsError(p, remaining, INITIAL_SOURCES);
      if attempts.Some? then attempts
      else if FullWithdrawalsError(p).Some? then FullWithdrawalsError(p)
      else if !TotalsWithin(p, Total(remaining, INITIAL_SOURCES)) then Some(ResumeCapsInvalid)
      else if Maintain(p, now).Failure? then Some(Maintain(p, now).error)
      else if !DailyWithin(p, original.credit.value.natural.value) then Some(ResumeCapsInvalid)
      else LeaseError(p, now)
  }

  function Clock(time: Option<int>): Result<int, Error> {
    if time.None? then Failure(InvalidDatetime) else Success(time.value)
  }

  /** The end of the window a preparation at this time can grant. */
  function OriginalEnd(started: int): int {
    Min(started + EXECUTION_WINDOW, Closing(Day(started)))
  }

  predicate SamePilot(p: Plan) {
    p.executionId.Some? && ValidId(p.executionId.value) && p.state.Paused? && p.eligible && p.sources == INITIAL_SOURCES
  }

  /** The later plan keeps the caps on attempts and has spent no less. */
  predicate SpentOn(from: Entry, to: Entry) {
    && EntryValid(from) && to.physicalAttempts == from.physicalAttempts
    && from.consumed <= to.consumed <= to.physicalAttempts
  }

  /**
   What the receipt of a preparation says is left is later compared with the absolute caps.
   So once the caps are prepared, a plan can only resume if every source had spent nothing
   before its preparation, or is capped at nothing: the original fresh pilot.
   */
  lemma ResumesOnlyTheFreshPilot(start: Plan, p: Plan)
    requires BudgetTight(start)
    requires forall s | s in INITIAL_SOURCES ::
      s in start.budget && s in p.budget && SpentOn(start.budget[s], p.budget[s])
    ensures AttemptsError(p, InitialRemaining(start), INITIAL_SOURCES).None?
       <==> forall s | s in INITIAL_SOURCES :: start.budget[s].consumed == 0 || p.budget[s].physicalAttempts == 0
  {
    var remaining := InitialRemaining(start);
    forall s | s in INITIAL_SOURCES
      ensures EntryValid(p.budget[s]) && WithinStart(p.budget[s], remaining[s], InitialGrant(s))
         <==> start.budget[s].consumed == 0 || p.budget[s].physicalAttempts == 0
    {
      assert EntryTight(start, s);
    }
  }

  // ---------------------------------------------------------------------------
  // Extending the deadline
  // ---------------------------------------------------------------------------

  predicate AuthorityHolds(h: Hashes, authority: Pinned<Authority>) {
    && authority.document.Some? && h.authority(authority.document.value) == authority.pin
    && authority.document.value.valid
  }

  /** The authority, the receipts and the plan speak of the same paused execution. */
  predicate NamesExecution(h: Hashes, p: Plan, original: Receipt, stopped: Receipt, a: Authority,
    preparePin: string, pausePin: string)
  {
    && SamePilot(p)
    && original.executionId == p.executionId && stopped.executionId == p.executionId && a.executionId == p.executionId
    && stopped.plan == h.plan(p)
    && a.prepared == preparePin && a.paused == pausePin
  }

  predicate ExtensionInTime(p: Plan, now: int, started: int, stoppedAt: int, a: Authority) {
    && 0 < a.maxSeconds <= 7200
    && started <= stoppedAt <= a.authorizedAt <= now < a.approvedUntil
    && started < a.originalUntil <= OriginalEnd(started)
    && p.executionUntil == Some(a.originalUntil)
    && a.originalUntil < a.approvedUntil <= a.authorizedAt + a.maxSeconds * SECOND
    && Day(now) == Day(started) == Day(a.approvedUntil)
    && p.executionDay == Some(Day(started))
  }

  /** The first extension of a paused plan: a later deadline and nothing else. */
  function ExtendPaused(h: Hashes, p: Plan, now: int, prepared: Pinned<Receipt>, paused: Pinned<Receipt>,
    authority: Pinned<Authority>, verified: bool): Result<(Patch, Lineage), Error>
  {
    if !verified then Failure(RuntimeUnverified)
    else
      var original :- ReadReceipt(h, prepared, Prepares);
      var stopped :- ReadReceipt(h, paused, Pauses);
      if !AuthorityHolds(h, authority) then Failure(ReceiptInvalid)
      else
        var a := authority.document.value;
        if !NamesExecution(h, p, original, stopped, a, prepared.pin, paused.pin) then Failure(SnapshotOrIdentity)
        else
          var started :- Clock(original.observed);
          var stoppedAt :- Clock(stopped.observed);
          if !ExtensionInTime(p, now, started, stoppedAt, a) then Failure(ExtensionWindowInvalid)
          else if ResumeCapsError(p, original, now).Some? then Failure(ResumeCapsError(p, original, now).value)
          else
            Success((SetUntil(a.approvedUntil), Lineage(
              h.plan(p), prepared.pin, paused.pin, authority.pin, a.authorizedAt, a.maxSeconds,
              a.originalUntil, a.approvedUntil, None, None, None, None)))
  }

  /** No source, and maintenance as a whole, has more left than the receipt says. */
  predicate CreditNotAbove(current: Credit, prior: Credit) {
    && prior.bySource.Some? && current.bySource.Some?
    && prior.maintenance.Some? && current.maintenance.Some?
    && (forall s | s in INITIAL_SOURCES && s in current.initial && s in prior.initial ::
          0 <= current.initial[s] <= prior.initial[s])
    && (forall s | s in INITIAL_SOURCES && s in current.bySource.value && s in prior.bySource.value ::
          0 <= current.bySource.value[s] <= prior.bySource.value[s])
    && 0 <= current.maintenance.value <= prior.maintenance.value
  }

  predicate CreditKnown(credit: Option<Credit>) {
    && credit.Some? && !credit.value.pending
    && credit.value.bySource.Some?
    && credit.value.initial.Keys == (set s | s in KNOWN && s in INITIAL_SOURCES)
    && credit.value.bySource.value.Keys == (set s | s in KNOWN && s in INITIAL_SOURCES)
  }

  /** The counters are no lower than a paused readback taken between the extension and the pause. */
  function ConsumptionError(h: Hashes, p: Plan, stoppedAt: int, extendedAt: int,
    consumption: Pinned<Observation>): Option<Error>
  {
    if consumption.document.None? || h.observation(consumption.document.value) != consumption.pin then Some(ReceiptPin)
    else
      var o := consumption.document.value;
      if !o.passed then Some(ConsumptionInvalid)
      else match ReadReceipt(h, o.baseline, Pauses)
        case Failure(e) => Some(e)
        case Success(baseline) =>
          if baseline.executionId != p.executionId || baseline.plan != h.plan(p) || baseline.observed.None?
             || !(extendedAt <= baseline.observed.value <= o.ended <= stoppedAt) then Some(ConsumptionInvalid)
          else if o.charged < 0 || o.sent < 0 || o.maintenance < 0 then Some(InvalidCounterOrLimit)
          else if p.executionConsumed < o.charged || p.executionSent < o.sent
            || p.incrementalConsumed < o.maintenance then
            Some(ConsumptionDecreased)
          else if o.sent > o.charged then Some(ConsumptionInvalid)
          else None
  }

  function ChainCreditError(h: Hashes, p: Plan, now: int, stoppedAt: int, extension: Receipt, extendedAt: int,
    consumption: Pinned<Observation>): Option<Error>
  {
    match Summary(p, now)
    case Failure(e) => Some(e)
    case Success(current) =>
      if current.pending || !CreditKnown(extension.credit) then Some(ExtensionCreditUnknown)
      else if !CreditNotAbove(current, extension.credit.value) then Some(ExtensionCreditIncreased)
      else ConsumptionError(h, p, stoppedAt, extendedAt, consumption)
  }

  /**
   The parent of a second extension is a first extension of the same preparation. With
   `laterUntil` the plan's deadline may already be the second one.
   */
  predicate ParentHolds(h: Hashes, p: Plan, now: int, original: Receipt, stopped: Receipt, origin: Receipt,
    parent: Receipt, preparePin: string, originPin: string, laterUntil: bool)
  {
    && parent.lineage.Some? && parent.observed.Some? && origin.observed.Some?
    && original.observed.Some? && stopped.observed.Some?
    && var l, started := parent.lineage.value, original.observed.value;
      && original.executionId == p.executionId && origin.executionId == p.executionId
      && parent.executionId == p.executionId && stopped.executionId == p.executionId
      && l.previousExtension.None?
      && l.preparedReceipt == preparePin && l.pausedReceipt == originPin && l.previousPlan == origin.plan
      && parent.state.Paused?
      && 0 < l.maxSeconds <= 7200
      && started < l.previousUntil <= OriginalEnd(started)
      && started <= origin.observed.value <= l.authorizedAt <= parent.observed.value <= stopped.observed.value <= now
      && l.previousUntil < l.until <= l.authorizedAt + l.maxSeconds * SECOND
      && Day(l.until) == Day(started) == Day(now)
      && stopped.plan == h.plan(p)
      && (laterUntil || p.executionUntil == Some(l.until))
      && SamePilot(p)
      && p.executionDay == Some(Day(started))
  }

  function ChainParentError(h: Hashes, p: Plan, now: int, original: Receipt, stopped: Receipt, origin: Receipt,
    parent: Receipt, preparePin: string, originPin: string, consumption: Pinned<Observation>, laterUntil: bool)
    : Option<Error>
  {
    if !ParentHolds(h, p, now, original, stopped, origin, parent, preparePin, originPin, laterUntil) then
      Some(ChainParentInvalid)
    else if FullWithdrawals !in p.budget then Some(SourceBudgetMissing)
    else if p.budget[FullWithdrawals] != Entry(0, 0) then Some(ChainFullExcluded)
    else if ResumeCapsError(p, original, now).Some? then ResumeCapsError(p, original, now)
    else ChainCreditError(h, p, now, stopped.observed.value, parent, parent.observed.value, consumption)
  }

  function ExtensionCeiling(a: Authority): int {
    if a.fiveHours then 18000 else 7200
  }

  /**
   The pause came before the authorisation; or, under the five-hour ceiling, an earlier
   pause of the same plan is presented as a witness. With `binding`, a witness must be the
   one that the extension's receipt is bound to.
   */
  predicate PauseOrder(h: Hashes, id: Option<string>, plan: string, stoppedAt: int, authorizedAt: int, observed: int,
    ceiling: int, earlier: Option<Pinned<Receipt>>, bound: Option<string>, binding: bool)
  {
    && stoppedAt <= observed && authorizedAt <= observed
    && !(binding && (stoppedAt > authorizedAt || earlier.Some?) && bound.None?)
    && if stoppedAt <= authorizedAt && earlier.None? then bound.None?
       else
         && ceiling == 18000 && earlier.Some? && (bound.None? || bound == Some(earlier.value.pin))
         && Witnesses(h, id, plan, earlier.value, Min(authorizedAt, stoppedAt))
  }

  /** An applied pause of the same plan and execution, no later than the given time. */
  predicate Witnesses(h: Hashes, id: Option<string>, plan: string, earlier: Pinned<Receipt>, latest: int) {
    var w := ReadReceipt(h, earlier, Pauses);
    && w.Success? && w.value.executionId == id && w.value.state.Paused? && w.value.plan == plan
    && w.value.observed.Some? && w.value.observed.value <= latest
  }

  predicate ChainAuthorised(h: Hashes, p: Plan, now: int, stoppedAt: int, previous: int, a: Authority,
    preparePin: string, pausePin: string, parentPin: string, earlier: Option<Pinned<Receipt>>)
  {
    && a.executionId == p.executionId && a.prepared == preparePin && a.paused == pausePin
    && a.previousExtension == Some(parentPin) && a.originalUntil == previous
    && 0 < a.maxSeconds <= ExtensionCeiling(a)
    && now < a.approvedUntil
    && PauseOrder(h, p.executionId, h.plan(p), stoppedAt, a.authorizedAt, now, ExtensionCeiling(a), earlier,
         None, false)
    && previous < a.approvedUntil <= a.authorizedAt + a.maxSeconds * SECOND
    && Day(a.approvedUntil) == Day(now)
  }

  /** The second extension, on top of a first one. */
  function ExtendChain(h: Hashes, p: Plan, now: int, prepared: Pinned<Receipt>, paused: Pinned<Receipt>,
    authority: Pinned<Authority>, verified: bool, origin: Pinned<Receipt>, parent: Pinned<Receipt>,
    consumption: Pinned<Observation>, earlier: Option<Pinned<Receipt>>): Result<(Patch, Lineage), Error>
  {
    if !verified then Failure(RuntimeUnverified)
    else
      var original :- ReadReceipt(h, prepared, Prepares);
      var stopped :- ReadReceipt(h, paused, Pauses);
      var first :- ReadReceipt(h, origin, Pauses);
      var extension :- ReadReceipt(h, parent, Extends);
      var broken := ChainParentError(h, p, now, original, stopped, first, extension, prepared.pin, origin.pin,
        consumption, false);
      if broken.Some? then Failure(broken.value)
      else if !AuthorityHolds(h, authority) then Failure(ReceiptInvalid)
      else
        var a, previous := authority.document.value, extension.lineage.value.until;
        if !ChainAuthorised(h, p, now, stopped.observed.value, previous, a, prepared.pin, paused.pin, parent.pin,
          earlier) then
          Failure(ChainAuthorityInvalid)
        else
          Success((SetUntil(a.approvedUntil), Lineage(
            h.plan(p), prepared.pin, paused.pin, authority.pin, a.authorizedAt, a.maxSeconds,
            previous, a.approvedUntil, Some(parent.pin), Some(origin.pin),
            if a.fiveHours then Some(18000) else None,
            if a.fiveHours && earlier.Some? then Some(earlier.value.pin) else None)))
  }

  /** A deadline moves only forward, into the future, within the execution day. */
  ghost predicate LaterToday(p: Plan, now: int, until: int) {
    && p.executionUntil.Some? && p.executionUntil.value < until
    && now < until < Closing(Day(now))
    && p.executionDay == Some(Day(now))
  }

  lemma ParentIsCurrent(h: Hashes, p: Plan, now: int, original: Receipt, stopped: Receipt, origin: Receipt,
    parent: Receipt, preparePin: string, originPin: string)
    requires ParentHolds(h, p, now, original, stopped, origin, parent, preparePin, originPin, false)
    ensures p.executionUntil == Some(parent.lineage.value.until) && p.executionDay == Some(Day(now))
  {
  }

  lemma AuthorisedIsLater(h: Hashes, p: Plan, now: int, stoppedAt: int, previous: int, a: Authority,
    preparePin: string, pausePin: string, parentPin: string, earlier: Option<Pinned<Receipt>>)
    requires ChainAuthorised(h, p, now, stoppedAt, previous, a, preparePin, pausePin, parentPin, earlier)
    requires p.executionUntil == Some(previous) && p.executionDay == Some(Day(now))
    ensures LaterToday(p, now, a.approvedUntil) && a.approvedUntil <= a.authorizedAt + 18000 * SECOND
  {
  }

  lemma ExtensionStaysToday(h: Hashes, p: Plan, now: int, prepared: Pinned<Receipt>, paused: Pinned<Receipt>,
    authority: Pinned<Authority>, verified: bool, r: (Patch, Lineage))
    requires ExtendPaused(h, p, now, prepared, paused, authority, verified) == Success(r)
    ensures r.0.SetUntil? && LaterToday(p, now, r.0.until)
    ensures r.0.until <= r.1.authorizedAt + 7200 * SECOND
      && p.executionUntil.value <= OriginalEnd(prepared.document.value.observed.value)
  {
  }

  lemma ChainStaysToday(h: Hashes, p: Plan, now: int, prepared: Pinned<Receipt>, paused: Pinned<Receipt>,
    authority: Pinned<Authority>, verified: bool, origin: Pinned<Receipt>, parent: Pinned<Receipt>,
    consumption: Pinned<Observation>, earlier: Option<Pinned<Receipt>>, r: (Patch, Lineage))
    requires ExtendChain(h, p, now, prepared, paused, authority, verified, origin, parent, consumption, earlier)
      == Success(r)
    ensures r.0.SetUntil? && LaterToday(p, now, r.0.until)
    ensures r.0.until <= r.1.authorizedAt + 18000 * SECOND
  {
    var original, stopped, first, extension :=
      prepared.document.value, paused.document.value, origin.document.value, parent.document.value;
    assert ParentHolds(h, p, now, original, stopped, first, extension, prepared.pin, origin.pin, false);
    ParentIsCurrent(h, p, now, original, stopped, first, extension, prepared.pin, origin.pin);
    AuthorisedIsLater(h, p, now, stopped.observed.value, extension.lineage.value.until, authority.document.value,
      prepared.pin, paused.pin, parent.pin, earlier);
  }

  lemma ChainNeedsItsParent(h: Hashes, p: Plan, now: int, prepared: Pinned<Receipt>, paused: Pinned<Receipt>,
    authority: Pinned<Authority>, verified: bool, origin: Pinned<Receipt>, parent: Pinned<Receipt>,
    consumption: Pinned<Observation>, earlier: Option<Pinned<Receipt>>)
    requires ExtendChain(h, p, now, prepared, paused, authority, verified, origin, parent, consumption,
      earlier).Success?
    ensures parent.document.Some? && parent.document.value.lineage.Some?
    ensures p.executionUntil == Some(parent.document.value.lineage.value.until)
  {
    assert ParentHolds(h, p, now, prepared.document.value, paused.document.value, origin.document.value,
      parent.document.value, prepared.pin, origin.pin, false);
  }

  /**
   A chain has two links: once a second extension is applied, its parent can never carry
   another one, at any time and under any authority.
   */
  lemma ChainHasTwoLinks(h: Hashes, p: Plan, now: int, prepared: Pinned<Receipt>, paused: Pinned<Receipt>,
    authority: Pinned<Authority>, verified: bool, origin: Pinned<Receipt>, parent: Pinned<Receipt>,
    consumption: Pinned<Observation>, earlier: Option<Pinned<Receipt>>, r: (Patch, Lineage),
    q: Plan, now': int, paused': Pinned<Receipt>, authority': Pinned<Authority>,
    consumption': Pinned<Observation>, earlier': Option<Pinned<Receipt>>)
    requires ExtendChain(h, p, now, prepared, paused, authority, verified, origin, parent, consumption, earlier)
      == Success(r)
    requires q.executionUntil == Patched(p, r.0).executionUntil
    ensures ExtendChain(h, q, now', prepared, paused', authority', true, origin, parent, consumption',
      earlier').Failure?
  {
    ChainStaysToday(h, p, now, prepared, paused, authority, verified, origin, parent, consumption, earlier, r);
    ChainNeedsItsParent(h, p, now, prepared, paused, authority, verified, origin, parent, consumption, earlier);
    if ExtendChain(h, q, now', prepared, paused', authority', true, origin, parent, consumption', earlier').Success? {
      ChainNeedsItsParent(h, q, now', prepared, paused', authority', true, origin, parent, consumption', earlier');
      assert false;
    }
  }

  // ---------------------------------------------------------------------------
  // Receipts across actions
  // ---------------------------------------------------------------------------

  /** The receipt an applied extension leaves. */
  function ExtensionReceipt(h: Hashes, p: Plan, now: int, r: (Patch, Lineage), credit: Option<Credit>): Receipt {
    var q := Patched(p, r.0);
    Receipt(Extends, true, true, true, q.executionId, Some(now), h.plan(q), q.state, credit, Some(r.1))
  }

  /** A first extension can carry a second one, after any later pause on the same day. */
  lemma ExtensionCanBeParent(h: Hashes, p: Plan, now: int, prepared: Pinned<Receipt>, paused: Pinned<Receipt>,
    authority: Pinned<Authority>, verified: bool, r: (Patch, Lineage), credit: Option<Credit>,
    q: Plan, stopped: Receipt, later: int)
    requires ExtendPaused(h, p, now, prepared, paused, authority, verified) == Success(r)
    requires SamePilot(q) && q.executionId == p.executionId && q.executionDay == p.executionDay
    requires q.executionUntil == Some(r.1.until)
    requires stopped.executionId == q.executionId && stopped.plan == h.plan(q)
    requires stopped.observed.Some? && now <= stopped.observed.value <= later && Day(later) == Day(now)
    ensures ParentHolds(h, q, later, prepared.document.value, stopped, paused.document.value,
      ExtensionReceipt(h, p, now, r, credit), prepared.pin, paused.pin, false)
  {
    assert ExtensionInTime(p, now, prepared.document.value.observed.value, paused.document.value.observed.value,
      authority.document.value);
  }

  lemma ResumeCapsHold(p: Plan, original: Receipt, now: int)
    requires ResumeCapsError(p, original, now).None?
    ensures StartKnown(original) && LeaseError(p, now).None?
    ensures forall s | s in INITIAL_SOURCES ::
      && s in original.credit.value.initial && s in p.budget
      && WithinStart(p.budget[s], original.credit.value.initial[s], InitialGrant(s))
    ensures TotalsWithin(p, Total(original.credit.value.initial, INITIAL_SOURCES))
    ensures DailyWithin(p, original.credit.value.natural.value)
  {
  }

  /** Every preparation can state its credit, and the credit is within the grants. */
  lemma PreparedCreditWithinGrants(p: Plan, now: int, id: Option<string>, patch: Patch)
    requires Prepare(p, now, id) == Success(patch)
    ensures Summary(Patched(p, patch), now).Success?
    ensures var c := Summary(Patched(p, patch), now).value;
      && (forall s | s in INITIAL_SOURCES :: s in c.initial && c.initial[s] <= InitialGrant(s))
      && (c.maintenance.Some? ==> c.maintenance.value <= MAINTENANCE_GRANT)
      && (c.natural.Some? ==> c.natural.value.total <= MAINTENANCE_GRANT)
  {
    var q := Patched(p, patch);
    PrepareTightens(p, now, id, patch);
    TightMaintenance(q, now, q.sources);
    TightSummary(q, now);
  }

  lemma TightSummary(q: Plan, now: int)
    requires BudgetTight(q) && MaintenanceTight(q, Day(now)) && Maintain(q, now).Success?
    ensures Summary(q, now).Success?
    ensures var c := Summary(q, now).value;
      && (forall s | s in INITIAL_SOURCES :: s in c.initial && c.initial[s] <= InitialGrant(s))
      && (c.maintenance.Some? ==> c.maintenance.value <= MAINTENANCE_GRANT)
      && (c.natural.Some? ==> c.natural.value.total <= MAINTENANCE_GRANT)
  {
    forall s | s in INITIAL_SOURCES
      ensures s in q.budget && EntryValid(q.budget[s]) && Remaining(q.budget[s]) <= InitialGrant(s)
    {
      assert EntryTight(q, s);
    }
  }
}
