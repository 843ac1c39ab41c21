/**
 Running on after a pause: the five ways in which receipts can lead from the preparation to
 the plan that is to run again, and the deadline each of them gives.
 */
module PilotResume {
  import opened Prelude
  import opened PilotPlan
  import opened PilotControl

  /**
   The receipts presented besides the preparation's and the latest pause's: none, one
   extension since that pause, one extension before it, or two extensions likewise.
   */
  datatype Route =
    | Direct
    | AfterExtension(extension: Pinned<Receipt>)
    | AfterRepause(extension: Pinned<Receipt>, origin: Pinned<Receipt>, consumption: Pinned<Observation>)
    | AfterChain(
        latest: Pinned<Receipt>, origin: Pinned<Receipt>, parent: Pinned<Receipt>,
        consumption: Pinned<Observation>, earlier: Option<Pinned<Receipt>>)
    | AfterChainRepause(
        latest: Pinned<Receipt>, origin: Pinned<Receipt>, parent: Pinned<Receipt>,
        consumption: Pinned<Observation>, step: Pinned<Receipt>, earlier: Option<Pinned<Receipt>>)

  /** What the preparation and the latest pause are known by. */
  datatype Bounds = Bounds(original: Receipt, stopped: Receipt, preparePin: string, pausePin: string)

  // ---------------------------------------------------------------------------
  // One extension
  // ---------------------------------------------------------------------------

  /** Whether an extension receipt leads from the paused plan to this one. */
  predicate ExtendsFrom(h: Hashes, p: Plan, now: int, started: int, b: Bounds, extension: Receipt) {
    && extension.lineage.Some? && extension.observed.Some? && b.stopped.observed.Some?
    && var l := extension.lineage.value;
      && extension.executionId == p.executionId && extension.state.Paused?
      && l.previousPlan == b.stopped.plan && extension.plan == h.plan(p)
      && l.preparedReceipt == b.preparePin && l.pausedReceipt == b.pausePin
      && 0 < l.maxSeconds <= 7200
      && started < l.previousUntil <= started + EXECUTION_WINDOW
      && b.stopped.observed.value <= l.authorizedAt <= extension.observed.value <= now < l.until
      && l.previousUntil < l.until <= l.authorizedAt + l.maxSeconds * SECOND
      && p.executionUntil == Some(l.until)
      && Day(l.until) == Day(started)
  }

  function ExtendedEnd(h: Hashes, p: Plan, now: int, started: int, b: Bounds, extension: Pinned<Receipt>)
    : Result<int, Error>
  {
    var e :- ReadReceipt(h, extension, Extends);
    if !ExtendsFrom(h, p, now, started, b, e) then Failure(ExtensionLineage)
    else Success(e.lineage.value.until)
  }

  /** Whether the plan was extended from an origin pause, ran on, and was paused again. */
  predicate RepausedFrom(h: Hashes, p: Plan, now: int, started: int, b: Bounds, origin: Receipt, originPin: string,
    extension: Receipt)
  {
    && extension.lineage.Some? && extension.observed.Some? && origin.observed.Some? && b.stopped.observed.Some?
    && var l := extension.lineage.value;
      && origin.executionId == p.executionId && extension.executionId == p.executionId && extension.state.Paused?
      && l.previousPlan == origin.plan && b.stopped.plan == h.plan(p)
      && l.preparedReceipt == b.preparePin && l.pausedReceipt == originPin
      && 0 < l.maxSeconds <= 7200
      && started < l.previousUntil <= started + EXECUTION_WINDOW
      && origin.observed.value <= l.authorizedAt <= extension.observed.value
      && extension.observed.value <= b.stopped.observed.value <= now < l.until
      && l.previousUntil < l.until <= l.authorizedAt + l.maxSeconds * SECOND
      && p.executionUntil == Some(l.until)
      && Day(l.until) == Day(started)
  }

  function RepausedEnd(h: Hashes, p: Plan, now: int, started: int, b: Bounds,
    origin: Pinned<Receipt>, extension: Pinned<Receipt>, consumption: Pinned<Observation>): Result<int, Error>
  {
    var o :- ReadReceipt(h, origin, Pauses);
    var e :- ReadReceipt(h, extension, Extends);
    if !RepausedFrom(h, p, now, started, b, o, origin.pin, e) then Failure(ExtensionLineage)
    else
      var broken := ChainCreditError(h, p, now, b.stopped.observed.value, e, e.observed.value, consumption);
      if broken.Some? then Failure(broken.value) else Success(e.lineage.value.until)
  }

  // ---------------------------------------------------------------------------
  // Two extensions
  // ---------------------------------------------------------------------------

  /** The ceiling an extension's receipt states; without one it is two hours. */
  function StatedCeiling(l: Lineage): int {
    if l.ceiling.None? then 7200 else l.ceiling.value
  }

  /** What every resume over two extensions asks of the second one's receipt. */
  predicate LatestHolds(h: Hashes, p: Plan, now: int, b: Bounds, latest: Receipt, parent: Receipt,
    pausedPin: string, originPin: string, parentPin: string)
  {
    && latest.lineage.Some? && latest.observed.Some? && parent.lineage.Some?
    && var l, previous := latest.lineage.value, parent.lineage.value.until;
      && StatedCeiling(l) in {7200, 18000}
      && latest.executionId == p.executionId && latest.state.Paused?
      && l.preparedReceipt == b.preparePin && l.pausedReceipt == pausedPin
      && l.originalPaused == Some(originPin) && l.previousExtension == Some(parentPin)
      && l.previousUntil == previous
      && 0 < l.maxSeconds <= StatedCeiling(l)
      && latest.observed.value <= now < l.until
      && previous < l.until <= l.authorizedAt + l.maxSeconds * SECOND
      && p.executionUntil == Some(l.until)
      && Day(l.until) == Day(now)
  }

  /** The plan before the second extension: the same, with the first one's deadline. */
  function BeforeSecond(p: Plan, parent: Receipt): Plan
    requires parent.lineage.Some?
  {
    p.(executionUntil := Some(parent.lineage.value.until))
  }

  predicate ChainedFrom(h: Hashes, p: Plan, now: int, b: Bounds, latest: Receipt, parent: Receipt,
    originPin: string, parentPin: string, earlier: Option<Pinned<Receipt>>)
  {
    && LatestHolds(h, p, now, b, latest, parent, b.pausePin, originPin, parentPin)
    && b.stopped.observed.Some?
    && var l := latest.lineage.value;
      && l.previousPlan == h.plan(BeforeSecond(p, parent)) && latest.plan == h.plan(p)
      && PauseOrder(h, p.executionId, l.previousPlan, b.stopped.observed.value, l.authorizedAt, latest.observed.value,
           StatedCeiling(l), earlier, l.preAuthorization, true)
  }

  function ChainedEnd(h: Hashes, p: Plan, now: int, b: Bounds, latest: Pinned<Receipt>, origin: Pinned<Receipt>,
    parent: Pinned<Receipt>, consumption: Pinned<Observation>, earlier: Option<Pinned<Receipt>>): Result<int, Error>
  {
    var second :- ReadReceipt(h, latest, Extends);
    var first :- ReadReceipt(h, parent, Extends);
    var o :- ReadReceipt(h, origin, Pauses);
    if first.lineage.None? then Failure(ChainParentInvalid)
    else
      var broken := ChainParentError(h, BeforeSecond(p, first), now, b.original, b.stopped, o, first,
        b.preparePin, origin.pin, consumption, false);
      if broken.Some? then Failure(broken.value)
      else if !ChainedFrom(h, p, now, b, second, first, origin.pin, parent.pin, earlier) then
        Failure(ChainParentInvalid)
      else Success(second.lineage.value.until)
  }

  predicate ChainRepausedFrom(h: Hashes, p: Plan, now: int, b: Bounds, latest: Receipt, parent: Receipt, step: Receipt,
    stepPin: string, originPin: string, parentPin: string, earlier: Option<Pinned<Receipt>>)
  {
    && LatestHolds(h, p, now, b, latest, parent, stepPin, originPin, parentPin)
    && b.stopped.observed.Some? && parent.observed.Some? && step.observed.Some?
    && var l := latest.lineage.value;
      && step.executionId == p.executionId && l.previousPlan == step.plan
      && parent.observed.value <= step.observed.value <= latest.observed.value <= b.stopped.observed.value <= now
      && PauseOrder(h, p.executionId, l.previousPlan, step.observed.value, l.authorizedAt, latest.observed.value,
           StatedCeiling(l), earlier, l.preAuthorization, true)
  }

  function ChainRepausedEnd(h: Hashes, p: Plan, now: int, b: Bounds, latest: Pinned<Receipt>, origin: Pinned<Receipt>,
    parent: Pinned<Receipt>, consumption: Pinned<Observation>, step: Pinned<Receipt>,
    earlier: Option<Pinned<Receipt>>): Result<int, Error>
  {
    var second :- ReadReceipt(h, latest, Extends);
    var first :- ReadReceipt(h, parent, Extends);
    var between :- ReadReceipt(h, step, Pauses);
    var o :- ReadReceipt(h, origin, Pauses);
    var broken := ChainParentError(h, p, now, b.original, b.stopped, o, first, b.preparePin, origin.pin, consumption,
      true);
    if broken.Some? then Failure(broken.value)
    else if !ChainRepausedFrom(h, p, now, b, second, first, between, step.pin, origin.pin, parent.pin, earlier) then
      Failure(ChainParentInvalid)
    else
      var spent := ChainCreditError(h, p, now, b.stopped.observed.value, second, second.observed.value, consumption);
      if spent.Some? then Failure(spent.value) else Success(second.lineage.value.until)
  }

  // ---------------------------------------------------------------------------
  // Resuming
  // ---------------------------------------------------------------------------

  /** The end of the window: that of the preparation, or the later one that extensions approved. */
  function ResumeEnd(h: Hashes, p: Plan, now: int, started: int, b: Bounds, route: Route): Result<int, Error> {
    match route
    case Direct => Success(OriginalEnd(started))
    case AfterExtension(extension) => ExtendedEnd(h, p, now, started, b, extension)
    case AfterRepause(extension, origin, consumption) =>
      RepausedEnd(h, p, now, started, b, origin, extension, consumption)
    case AfterChain(latest, origin, parent, consumption, earlier) =>
      ChainedEnd(h, p, now, b, latest, origin, parent, consumption, earlier)
    case AfterChainRepause(latest, origin, parent, consumption, step, earlier) =>
      ChainRepausedEnd(h, p, now, b, latest, origin, parent, consumption, step, earlier)
  }

  /** The window and the limit allow the plan to run until the end. */
  predicate InWindow(p: Plan, now: int, started: int, stoppedAt: int, end: int) {
    && started <= stoppedAt <= now < end && Day(now) == Day(started)
    && p.executionDay == Some(Day(started))
    && p.executionUntil.Some? && now < p.executionUntil.value <= end
    && ExecutionAllowed(p, now)
  }

  /** Run on after a pause, by the original receipts and those of a route. */
  function Resume(h: Hashes, p: Plan, now: int, prepared: Pinned<Receipt>, paused: Pinned<Receipt>,
    verified: bool, route: Route): Result<Patch, Error>
  {
    if !verified then Failure(RuntimeUnverified)
    else
      var original :- ReadReceipt(h, prepared, Prepares);
      var stopped :- ReadReceipt(h, paused, Pauses);
      if !SamePilot(p) || original.executionId != p.executionId || stopped.executionId != p.executionId
         || ((route.Direct? || route.AfterRepause?) && stopped.plan != h.plan(p))
      then Failure(SnapshotOrIdentity)
      else
        var started :- Clock(original.observed);
        var stoppedAt :- Clock(stopped.observed);
        var end :- ResumeEnd(h, p, now, started, Bounds(original, stopped, prepared.pin, paused.pin), route);
        if !InWindow(p, now, started, stoppedAt, end) then Failure(ExecutionWindowOrLimit)
        else if ResumeCapsError(p, original, now).Some? then Failure(ResumeCapsError(p, original, now).value)
        else Success(SetState(Active))
  }

  /** The receipt that names the plan to run, whole. */
  function Binding(paused: Pinned<Receipt>, route: Route): Pinned<Receipt> {
    match route
    case AfterExtension(extension) => extension
    case AfterChain(latest, _, _, _, _) => latest
    case _ => paused
  }

  /** The plan the latest pause names: this one, or the one before the extension since. */
  ghost predicate PauseNames(h: Hashes, p: Plan, paused: Receipt, route: Route) {
    match route
    case AfterExtension(extension) =>
      && extension.document.Some? && extension.document.value.lineage.Some?
      && paused.plan == extension.document.value.lineage.value.previousPlan
    case AfterChain(_, _, parent, _, _) =>
      && parent.document.Some? && parent.document.value.lineage.Some?
      && paused.plan == h.plan(BeforeSecond(p, parent.document.value))
    case _ => paused.plan == h.plan(p)
  }

  lemma ExtendedIsBound(h: Hashes, p: Plan, now: int, started: int, b: Bounds, extension: Pinned<Receipt>, end: int)
    requires ExtendedEnd(h, p, now, started, b, extension) == Success(end)
    ensures extension.document.Some? && extension.document.value.lineage.Some?
    ensures extension.document.value.plan == h.plan(p)
    ensures b.stopped.plan == extension.document.value.lineage.value.previousPlan
    ensures Day(end) == Day(started)
  {
    assert ExtendsFrom(h, p, now, started, b, extension.document.value);
  }

  lemma RepausedIsBound(h: Hashes, p: Plan, now: int, started: int, b: Bounds,
    origin: Pinned<Receipt>, extension: Pinned<Receipt>, consumption: Pinned<Observation>, end: int)
    requires RepausedEnd(h, p, now, started, b, origin, extension, consumption) == Success(end)
    ensures b.stopped.plan == h.plan(p) && Day(end) == Day(started)
  {
    assert RepausedFrom(h, p, now, started, b, origin.document.value, origin.pin, extension.document.value);
  }

  lemma ParentNamesPlan(h: Hashes, p: Plan, now: int, original: Receipt, stopped: Receipt, origin: Receipt,
    parent: Receipt, preparePin: string, originPin: string, consumption: Pinned<Observation>, laterUntil: bool)
    requires ChainParentError(h, p, now, original, stopped, origin, parent, preparePin, originPin, consumption,
      laterUntil).None?
    ensures parent.lineage.Some? && stopped.plan == h.plan(p)
  {
    assert ParentHolds(h, p, now, original, stopped, origin, parent, preparePin, originPin, laterUntil);
  }

  lemma ChainedIsBound(h: Hashes, p: Plan, now: int, b: Bounds, latest: Pinned<Receipt>, origin: Pinned<Receipt>,
    parent: Pinned<Receipt>, consumption: Pinned<Observation>, earlier: Option<Pinned<Receipt>>, end: int)
    requires ChainedEnd(h, p, now, b, latest, origin, parent, consumption, earlier) == Success(end)
    ensures latest.document.Some? && latest.document.value.plan == h.plan(p)
    ensures parent.document.Some? && parent.document.value.lineage.Some?
    ensures b.stopped.plan == h.plan(BeforeSecond(p, parent.document.value))
    ensures Day(end) == Day(now)
  {
    var first := parent.document.value;
    ParentNamesPlan(h, BeforeSecond(p, first), now, b.original, b.stopped, origin.document.value, first,
      b.preparePin, origin.pin, consumption, false);
    assert ChainedFrom(h, p, now, b, latest.document.value, first, origin.pin, parent.pin, earlier);
  }

  lemma ChainRepausedIsBound(h: Hashes, p: Plan, now: int, b: Bounds, latest: Pinned<Receipt>, origin: Pinned<Receipt>,
    parent: Pinned<Receipt>, consumption: Pinned<Observation>, step: Pinned<Receipt>,
    earlier: Option<Pinned<Receipt>>, end: int)
    requires ChainRepausedEnd(h, p, now, b, latest, origin, parent, consumption, step, earlier) == Success(end)
    ensures b.stopped.plan == h.plan(p) && Day(end) == Day(now)
  {
    ParentNamesPlan(h, p, now, b.original, b.stopped, origin.document.value, parent.document.value,
      b.preparePin, origin.pin, consumption, true);
    assert ChainRepausedFrom(h, p, now, b, latest.document.value, parent.document.value, step.document.value,
      step.pin, origin.pin, parent.pin, earlier);
  }

  lemma DayCloses(time: int)
    ensures time < Closing(Day(time))
  {
  }

  lemma EndIsBound(h: Hashes, p: Plan, now: int, started: int, b: Bounds, paused: Pinned<Receipt>, route: Route,
    end: int)
    requires paused.document == Some(b.stopped) && Day(now) == Day(started)
    requires route.Direct? ==> b.stopped.plan == h.plan(p)
    requires ResumeEnd(h, p, now, started, b, route) == Success(end)
    ensures end <= Closing(Day(now))
    ensures Binding(paused, route).document.Some? && Binding(paused, route).document.value.plan == h.plan(p)
    ensures PauseNames(h, p, b.stopped, route)
  {
    DayCloses(end);
    match route
    case Direct =>
    case AfterExtension(extension) => ExtendedIsBound(h, p, now, started, b, extension, end);
    case AfterRepause(extension, origin, consumption) =>
      RepausedIsBound(h, p, now, started, b, origin, extension, consumption, end);
    case AfterChain(latest, origin, parent, consumption, earlier) =>
      ChainedIsBound(h, p, now, b, latest, origin, parent, consumption, earlier, end);
    case AfterChainRepause(latest, origin, parent, consumption, step, earlier) =>
      ChainRepausedIsBound(h, p, now, b, latest, origin, parent, consumption, step, earlier, end);
  }

  /** What a resume has checked. */
  lemma Resumed(h: Hashes, p: Plan, now: int, prepared: Pinned<Receipt>, paused: Pinned<Receipt>,
    verified: bool, route: Route) returns (b: Bounds, started: int, end: int)
    requires Resume(h, p, now, prepared, paused, verified, route).Success?
    ensures verified && prepared.document == Some(b.original) && paused.document == Some(b.stopped)
    ensures b.preparePin == prepared.pin && b.pausePin == paused.pin
    ensures SamePilot(p) && (route.Direct? ==> b.stopped.plan == h.plan(p))
    ensures b.stopped.observed.Some? && InWindow(p, now, started, b.stopped.observed.value, end)
    ensures ResumeEnd(h, p, now, started, b, route) == Success(end)
    ensures ResumeCapsError(p, b.original, now).None?
  {
    b := Bounds(prepared.document.value, paused.document.value, prepared.pin, paused.pin);
    started := b.original.observed.value;
    end := ResumeEnd(h, p, now, started, b, route).value;
  }

  /**
   By every route a resumed plan is the very plan some receipt names whole: the latest
   pause, or the extension since then, and then the pause names the plan that was extended.
   Its deadline is on the execution day.
   */
  lemma ResumesABoundPlan(h: Hashes, p: Plan, now: int, prepared: Pinned<Receipt>, paused: Pinned<Receipt>,
    verified: bool, route: Route, q: Plan)
    requires PlansDistinguished(h)
    requires Resume(h, p, now, prepared, paused, verified, route).Success?
    requires Binding(paused, route).document.Some? && Binding(paused, route).document.value.plan == h.plan(q)
    ensures p == q
    ensures PauseNames(h, p, paused.document.value, route)
    ensures now < p.executionUntil.value <= Closing(Day(now))
  {
    var b, started, end := Resumed(h, p, now, prepared, paused, verified, route);
    EndIsBound(h, p, now, started, b, paused, route, end);
  }

  /** By every route, only a plan that is ready to run resumes, with the caps its preparation left. */
  lemma ResumesOnlyReadyPlans(h: Hashes, p: Plan, now: int, prepared: Pinned<Receipt>, paused: Pinned<Receipt>,
    verified: bool, route: Route)
    requires Resume(h, p, now, prepared, paused, verified, route).Success?
    ensures verified && ReadyToRun(p, now)
    ensures prepared.document.Some? && StartKnown(prepared.document.value)
    ensures var remaining := prepared.document.value.credit.value.initial;
      && (forall s | s in INITIAL_SOURCES :: s in p.budget && s in remaining
            && p.budget[s].consumed <= p.budget[s].physicalAttempts <= remaining[s] <= InitialGrant(s))
      && p.totalBudget <= Total(remaining, INITIAL_SOURCES)
    ensures p.attemptLimit.Some? && p.attemptLimit.value <= ATTEMPT_GRANT
    ensures p.policy.Some?
    ensures p.policy.value.total <= MAINTENANCE_GRANT && p.policy.value.perSource <= MAINTENANCE_SOURCE_GRANT
  {
    var b, started, end := Resumed(h, p, now, prepared, paused, verified, route);
    ResumeCapsHold(p, b.original, now);
  }

  // ---------------------------------------------------------------------------
  // Extensions are honoured
  // ---------------------------------------------------------------------------

  lemma SameDayMaintenance(p: Plan, now: int, later: int)
    requires Day(now) == Day(later)
    ensures Maintain(p, later) == Maintain(p, now) && Summary(p, later) == Summary(p, now)
  {
  }

  /** Checks that held at one instant hold later on the same day. */
  lemma CapsHoldLater(p: Plan, original: Receipt, now: int, later: int)
    requires ResumeCapsError(p, original, now).None? && now <= later && Day(now) == Day(later)
    ensures ResumeCapsError(p, original, later).None?
  {
    SameDayMaintenance(p, now, later);
  }

  lemma SameMaintenance(p: Plan, until: int, now: int)
    ensures Maintain(Patched(p, SetUntil(until)), now) == Maintain(p, now)
  {
  }

  lemma SameAttempts(p: Plan, until: int, remaining: map<Source, int>)
    requires forall s | s in INITIAL_SOURCES :: s in remaining
    requires AttemptsError(p, remaining, INITIAL_SOURCES).None?
    ensures AttemptsError(Patched(p, SetUntil(until)), remaining, INITIAL_SOURCES).None?
  {
  }

  /** A later deadline touches no cap. */
  lemma CapsHoldExtended(p: Plan, until: int, original: Receipt, now: int, later: int)
    requires ResumeCapsError(p, original, now).None? && now <= later && Day(now) == Day(later)
    ensures ResumeCapsError(Patched(p, SetUntil(until)), original, later).None?
  {
    SameMaintenance(p, until, now);
    SameAttempts(p, until, original.credit.value.initial);
    CapsHoldLater(Patched(p, SetUntil(until)), original, now, later);
  }

  /** An extended plan is in its window until the approved deadline. */
  lemma ExtendedInWindow(p: Plan, original: Receipt, now: int, started: int, stoppedAt: int, until: int, later: int)
    requires ResumeCapsError(p, original, now).None?
    requires started <= stoppedAt <= now <= later < until && Day(now) == Day(started) == Day(until)
    requires p.executionDay == Some(Day(started))
    ensures Day(later) == Day(now) && InWindow(Patched(p, SetUntil(until)), later, started, stoppedAt, until)
  {
    ResumeCapsHold(p, original, now);
    BetweenIsSameDay(now, later, until);
  }

  /**
   Until the approved deadline, the receipt of a first extension leads a resume from the
   pause it rested on to exactly that deadline, and the extended plan does run again.
   */
  lemma ExtensionIsHonoured(h: Hashes, p: Plan, now: int, prepared: Pinned<Receipt>, paused: Pinned<Receipt>,
    authority: Pinned<Authority>, verified: bool, r: (Patch, Lineage), credit: Option<Credit>, later: int)
    requires ExtendPaused(h, p, now, prepared, paused, authority, verified) == Success(r)
    requires now <= later < r.1.until
    ensures var e := ExtensionReceipt(h, p, now, r, credit);
      var b := Bounds(prepared.document.value, paused.document.value, prepared.pin, paused.pin);
      var route := AfterExtension(Pinned(Some(e), h.receipt(e)));
      && ResumeEnd(h, Patched(p, r.0), later, b.original.observed.value, b, route) == Success(r.1.until)
      && Resume(h, Patched(p, r.0), later, prepared, paused, true, route) == Success(SetState(Active))
  {
    var e := ExtensionReceipt(h, p, now, r, credit);
    var b := Bounds(prepared.document.value, paused.document.value, prepared.pin, paused.pin);
    var started, stoppedAt := b.original.observed.value, b.stopped.observed.value;
    assert ExtensionInTime(p, now, started, stoppedAt, authority.document.value);
    assert ExtendsFrom(h, Patched(p, r.0), later, started, b, e);
    ResumesUntil(h, p, now, prepared, paused, AfterExtension(Pinned(Some(e), h.receipt(e))), r.1.until, later);
  }

  lemma CreditHoldsLater(h: Hashes, p: Plan, now: int, stoppedAt: int, extension: Receipt, extendedAt: int,
    consumption: Pinned<Observation>, later: int)
    requires Day(now) == Day(later)
    ensures ChainCreditError(h, p, later, stoppedAt, extension, extendedAt, consumption)
         == ChainCreditError(h, p, now, stoppedAt, extension, extendedAt, consumption)
  {
    SameDayMaintenance(p, now, later);
  }

  lemma ParentHoldsLater(h: Hashes, p: Plan, now: int, original: Receipt, stopped: Receipt, origin: Receipt,
    parent: Receipt, preparePin: string, originPin: string, consumption: Pinned<Observation>, later: int)
    requires ChainParentError(h, p, now, original, stopped, origin, parent, preparePin, originPin, consumption,
      false).None?
    requires now <= later && Day(now) == Day(later)
    ensures ChainParentError(h, p, later, original, stopped, origin, parent, preparePin, originPin, consumption,
      false).None?
  {
    assert ParentHolds(h, p, now, original, stopped, origin, parent, preparePin, originPin, false);
    assert ParentHolds(h, p, later, original, stopped, origin, parent, preparePin, originPin, false);
    CapsHoldLater(p, original, now, later);
    CreditHoldsLater(h, p, now, stopped.observed.value, parent, parent.observed.value, consumption, later);
  }

  /** What a second extension has checked. */
  lemma Chained(h: Hashes, p: Plan, now: int, prepared: Pinned<Receipt>, paused: Pinned<Receipt>,
    authority: Pinned<Authority>, verified: bool, origin: Pinned<Receipt>, parent: Pinned<Receipt>,
    consumption: Pinned<Observation>, earlier: Option<Pinned<Receipt>>, r: (Patch, Lineage)) returns (a: Authority)
    requires ExtendChain(h, p, now, prepared, paused, authority, verified, origin, parent, consumption, earlier)
      == Success(r)
    ensures prepared.document.Some? && paused.document.Some? && paused.document.value.observed.Some?
    ensures ReadReceipt(h, prepared, Prepares) == Success(prepared.document.value)
    ensures ReadReceipt(h, paused, Pauses) == Success(paused.document.value)
    ensures origin.document.Some? && parent.document.Some?
    ensures ReadReceipt(h, origin, Pauses) == Success(origin.document.value)
    ensures ReadReceipt(h, parent, Extends) == Success(parent.document.value) && parent.document.value.lineage.Some?
    ensures ChainParentError(h, p, now, prepared.document.value, paused.document.value, origin.document.value,
      parent.document.value, prepared.pin, origin.pin, consumption, false).None?
    ensures ChainAuthorised(h, p, now, paused.document.value.observed.value,
      parent.document.value.lineage.value.until, a, prepared.pin, paused.pin, parent.pin, earlier)
    ensures r == (SetUntil(a.approvedUntil), Lineage(
      h.plan(p), prepared.pin, paused.pin, authority.pin, a.authorizedAt, a.maxSeconds,
      parent.document.value.lineage.value.until, a.approvedUntil, Some(parent.pin), Some(origin.pin),
      if a.fiveHours then Some(18000) else None,
      if a.fiveHours && earlier.Some? then Some(earlier.value.pin) else None))
  {
    a := authority.document.value;
  }

  /**
   Until the approved deadline, the receipt of a second extension leads a resume from the
   pause it rested on to exactly that deadline, and the extended plan does run again.
   */
  lemma SecondExtensionIsHonoured(h: Hashes, p: Plan, now: int, prepared: Pinned<Receipt>, paused: Pinned<Receipt>,
    authority: Pinned<Authority>, verified: bool, origin: Pinned<Receipt>, parent: Pinned<Receipt>,
    consumption: Pinned<Observation>, earlier: Option<Pinned<Receipt>>, r: (Patch, Lineage), credit: Option<Credit>,
    later: int)
    requires ExtendChain(h, p, now, prepared, paused, authority, verified, origin, parent, consumption, earlier)
      == Success(r)
    requires now <= later < r.1.until
    ensures var e := ExtensionReceipt(h, p, now, r, credit);
      var b := Bounds(prepared.document.value, paused.document.value, prepared.pin, paused.pin);
      var route := AfterChain(Pinned(Some(e), h.receipt(e)), origin, parent, consumption, earlier);
      && b.original.observed.Some?
      && ResumeEnd(h, Patched(p, r.0), later, b.original.observed.value, b, route) == Success(r.1.until)
      && Resume(h, Patched(p, r.0), later, prepared, paused, true, route) == Success(SetState(Active))
  {
    var a := Chained(h, p, now, prepared, paused, authority, verified, origin, parent, consumption, earlier, r);
    var b := Bounds(prepared.document.value, paused.document.value, prepared.pin, paused.pin);
    SecondExtensionChains(h, p, now, b, origin, parent, consumption, earlier, a, r, credit, later);
    ChainParentKnown(h, p, now, b.original, b.stopped, origin.document.value, parent.document.value, b.preparePin,
      origin.pin, consumption);
    var e := ExtensionReceipt(h, p, now, r, credit);
    var route := AfterChain(Pinned(Some(e), h.receipt(e)), origin, parent, consumption, earlier);
    ResumesUntil(h, p, now, prepared, paused, route, a.approvedUntil, later);
  }

  lemma ChainParentKnown(h: Hashes, p: Plan, now: int, original: Receipt, stopped: Receipt, origin: Receipt,
    parent: Receipt, preparePin: string, originPin: string, consumption: Pinned<Observation>)
    requires ChainParentError(
      h, p, now, original, stopped, origin, parent, preparePin, originPin, consumption, false).None?
    ensures original.observed.Some? && stopped.observed.Some?
    ensures original.observed.value <= stopped.observed.value <= now && Day(now) == Day(original.observed.value)
    ensures SamePilot(p) && original.executionId == p.executionId && stopped.executionId == p.executionId
    ensures p.executionDay == Some(Day(now)) && ResumeCapsError(p, original, now).None?
  {
    assert ParentHolds(h, p, now, original, stopped, origin, parent, preparePin, originPin, false);
  }

  /** With a route that leads to the approved deadline, the extended plan runs again until then. */
  lemma ResumesUntil(h: Hashes, p: Plan, now: int, prepared: Pinned<Receipt>, paused: Pinned<Receipt>, route: Route,
    until: int, later: int)
    requires prepared.document.Some? && paused.document.Some? && !route.Direct? && !route.AfterRepause?
    requires ReadReceipt(h, prepared, Prepares) == Success(prepared.document.value)
    requires ReadReceipt(h, paused, Pauses) == Success(paused.document.value)
    requires var original, stopped := prepared.document.value, paused.document.value;
      && original.observed.Some? && stopped.observed.Some?
      && original.observed.value <= stopped.observed.value <= now <= later < until
      && Day(now) == Day(original.observed.value) == Day(until) && p.executionDay == Some(Day(now))
      && SamePilot(p) && original.executionId == p.executionId && stopped.executionId == p.executionId
      && ResumeCapsError(p, original, now).None?
      && ResumeEnd(h, Patched(p, SetUntil(until)), later, original.observed.value,
           Bounds(original, stopped, prepared.pin, paused.pin), route) == Success(until)
    ensures Resume(h, Patched(p, SetUntil(until)), later, prepared, paused, true, route) == Success(SetState(Active))
  {
    var original, stopped := prepared.document.value, paused.document.value;
    ExtendedInWindow(p, original, now, original.observed.value, stopped.observed.value, until, later);
    CapsHoldExtended(p, until, original, now, later);
  }

  lemma SecondExtensionChains(h: Hashes, p: Plan, now: int, b: Bounds, origin: Pinned<Receipt>, parent: Pinned<Receipt>,
    consumption: Pinned<Observation>, earlier: Option<Pinned<Receipt>>, a: Authority, r: (Patch, Lineage),
    credit: Option<Credit>, later: int)
    requires origin.document.Some? && parent.document.Some?
    requires ReadReceipt(h, origin, Pauses) == Success(origin.document.value)
    requires ReadReceipt(h, parent, Extends) == Success(parent.document.value) && parent.document.value.lineage.Some?
    requires ChainParentError(h, p, now, b.original, b.stopped, origin.document.value, parent.document.value,
      b.preparePin, origin.pin, consumption, false).None?
    requires b.stopped.observed.Some?
    requires ChainAuthorised(h, p, now, b.stopped.observed.value, parent.document.value.lineage.value.until, a,
      b.preparePin, b.pausePin, parent.pin, earlier)
    requires r.0 == SetUntil(a.approvedUntil)
    requires r.1.previousPlan == h.plan(p) && r.1.preparedReceipt == b.preparePin && r.1.pausedReceipt == b.pausePin
    requires r.1.authorizedAt == a.authorizedAt && r.1.maxSeconds == a.maxSeconds && r.1.until == a.approvedUntil
    requires r.1.previousUntil == parent.document.value.lineage.value.until
    requires r.1.previousExtension == Some(parent.pin) && r.1.originalPaused == Some(origin.pin)
    requires r.1.ceiling == if a.fiveHours then Some(18000) else None
    requires r.1.preAuthorization == if a.fiveHours && earlier.Some? then Some(earlier.value.pin) else None
    requires now <= later < a.approvedUntil
    ensures var e := ExtensionReceipt(h, p, now, r, credit);
      ChainedEnd(h, Patched(p, r.0), later, b, Pinned(Some(e), h.receipt(e)), origin, parent, consumption, earlier)
        == Success(a.approvedUntil)
  {
    var e, q, first := ExtensionReceipt(h, p, now, r, credit), Patched(p, r.0), parent.document.value;
    assert ParentHolds(h, p, now, b.original, b.stopped, origin.document.value, first, b.preparePin, origin.pin, false);
    assert BeforeSecond(q, first) == p;
    BetweenIsSameDay(now, later, a.approvedUntil);
    ParentHoldsLater(h, p, now, b.original, b.stopped, origin.document.value, first, b.preparePin, origin.pin,
      consumption, later);
    assert LatestHolds(h, q, later, b, e, first, b.pausePin, origin.pin, parent.pin);
    assert ChainedFrom(h, q, later, b, e, first, origin.pin, parent.pin, earlier);
  }

  lemma BetweenIsSameDay(now: int, later: int, until: int)
    requires now <= later < until && Day(until) == Day(now)
    ensures Day(later) == Day(now)
  {
  }
}
