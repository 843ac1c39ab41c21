/**
 What the pilot's plan goes through: control actions written by compare-and-swap, charges
 taken by the acquisition workers, and the proof that no run spends more than one
 preparation grants.
 */
module PilotRun {
  import opened Prelude
  import opened PilotPlan
  import opened PilotControl
  import opened PilotResume

  datatype Command =
    | PreparePilot
    | PausePilot
    | ActivatePilot(prepared: Pinned<Receipt>, verified: bool)
    | ResumePilot(prepared: Pinned<Receipt>, paused: Pinned<Receipt>, verified: bool, route: Route)
    | ExtendPilot(prepared: Pinned<Receipt>, paused: Pinned<Receipt>, authority: Pinned<Authority>, verified: bool)
    | ExtendAgain(
        prepared: Pinned<Receipt>, paused: Pinned<Receipt>, authority: Pinned<Authority>, verified: bool,
        origin: Pinned<Receipt>, parent: Pinned<Receipt>, consumption: Pinned<Observation>,
        earlier: Option<Pinned<Receipt>>)

  function ActionOf(cmd: Command): Action {
    match cmd
    case PreparePilot => Prepares
    case PausePilot => Pauses
    case ActivatePilot(_, _) => Activates
    case ResumePilot(_, _, _, _) => Resumes
    case _ => Extends
  }

  function NoLineage(r: Result<Patch, Error>): Result<(Patch, Option<Lineage>), Error> {
    match r
    case Success(patch) => Success((patch, None))
    case Failure(e) => Failure(e)
  }

  function WithLineage(r: Result<(Patch, Lineage), Error>): Result<(Patch, Option<Lineage>), Error> {
    match r
    case Success(both) => Success((both.0, Some(both.1)))
    case Failure(e) => Failure(e)
  }

  /** What an action wants to change in the plan it read. */
  function Decide(h: Hashes, p: Plan, now: int, id: Option<string>, cmd: Command)
    : Result<(Patch, Option<Lineage>), Error>
  {
    if !p.identity then Failure(PolicyIdentityMismatch)
    else if id.Some? && ActionOf(cmd) in {Pauses, Resumes, Extends} && p.executionId != id then
      Failure(ExecutionIdentityChanged)
    else match cmd
      case PreparePilot => NoLineage(Prepare(p, now, id))
      case PausePilot => NoLineage(Success(SetState(Paused)))
      case ActivatePilot(prepared, verified) => NoLineage(Activate(h, p, now, prepared, verified))
      case ResumePilot(prepared, paused, verified, route) =>
        NoLineage(Resume(h, p, now, prepared, paused, verified, route))
      case ExtendPilot(prepared, paused, authority, verified) =>
        WithLineage(ExtendPaused(h, p, now, prepared, paused, authority, verified))
      case ExtendAgain(prepared, paused, authority, verified, origin, parent, consumption, earlier) =>
        WithLineage(ExtendChain(h, p, now, prepared, paused, authority, verified, origin, parent, consumption, earlier))
  }

  // ---------------------------------------------------------------------------
  // Writing by compare-and-swap
  // ---------------------------------------------------------------------------

  /** The document after one action, when others write `before` and `after` its swap. */
  function Stored(
    h: Hashes, plan: Option<Plan>, now: int, id: Option<string>, cmd: Command, apply: bool,
    before: Option<Plan>, after: Option<Plan>): Option<Plan>
  {
    if !apply || plan.None? || Decide(h, plan.value, now, id, cmd).Failure? then plan
    else if before.Some? && before != plan then before
    else if after.Some? then after
    else Some(Patched(plan.value, Decide(h, plan.value, now, id, cmd).value.0))
  }

  /** Nobody changed the plan before the swap, nor into another one before the readback. */
  predicate Uncontested(h: Hashes, read: Plan, resulting: Plan, before: Option<Plan>, after: Option<Plan>) {
    && (before.Some? ==> before == Some(read))
    && (after.Some? ==> h.plan(after.value) == h.plan(resulting))
  }

  lemma BudgetStates(p: Plan, now: int, patch: Patch)
    requires !patch.Prepared? && Maintain(p, now).Success?
    requires forall s | s in INITIAL_SOURCES :: s in p.budget && EntryValid(p.budget[s])
    ensures Summary(Patched(p, patch), now).Success?
  {
    var q := Patched(p, patch);
    assert Maintain(q, now) == Maintain(p, now);
    assert BudgetError(q, INITIAL_SOURCES).None?;
  }

  lemma ReadyCapsState(p: Plan, original: Receipt, now: int, patch: Patch)
    requires !patch.Prepared? && ResumeCapsError(p, original, now).None?
    ensures Summary(Patched(p, patch), now).Success?
  {
    assert AttemptsError(p, original.credit.value.initial, INITIAL_SOURCES).None?;
    BudgetStates(p, now, patch);
  }

  lemma ActivationStates(
    h: Hashes, p: Plan, now: int, prepared: Pinned<Receipt>, verified: bool, patch: Patch)
    requires Activate(h, p, now, prepared, verified) == Success(patch)
    ensures Summary(Patched(p, patch), now).Success?
  {
    assert BudgetError(p, SOURCES).None? && Prepare(p, now, p.executionId).Success?;
    BudgetStates(p, now, patch);
  }

  /** Once an action has decided, its receipt can state the credit: nothing is left to fail after the swap. */
  lemma DecidedCanState(
    h: Hashes, p: Plan, now: int, id: Option<string>, cmd: Command, patch: Patch, lineage: Option<Lineage>)
    requires Decide(h, p, now, id, cmd) == Success((patch, lineage)) && !cmd.PausePilot?
    ensures Summary(Patched(p, patch), now).Success?
  {
    match cmd
    case PreparePilot => PreparedCreditWithinGrants(p, now, id, patch);
    case PausePilot =>
    case ActivatePilot(prepared, verified) => ActivationStates(h, p, now, prepared, verified, patch);
    case ResumePilot(prepared, paused, verified, route) =>
      var b, started, end := Resumed(h, p, now, prepared, paused, verified, route);
      ReadyCapsState(p, b.original, now, patch);
    case ExtendPilot(prepared, _, _, _) => ReadyCapsState(p, prepared.document.value, now, patch);
    case ExtendAgain(prepared, paused, authority, verified, origin, parent, consumption, earlier) =>
      var r := (patch, lineage.value);
      var a := Chained(h, p, now, prepared, paused, authority, verified, origin, parent, consumption, earlier, r);
      ChainParentKnown(h, p, now, prepared.document.value, paused.document.value, origin.document.value,
        parent.document.value, prepared.pin, origin.pin, consumption);
      ReadyCapsState(p, prepared.document.value, now, patch);
  }

  class PlanStore {
    var plan: Option<Plan>

    constructor (plan: Option<Plan>)
      ensures this.plan == plan
    {
      this.plan := plan;
    }

    /** Another process writes the document, or leaves it alone. */
    method Elsewhere(write: Option<Plan>)
      modifies this
      ensures plan == if write.Some? then write else old(plan)
    {
      if write.Some? {
        plan := write;
      }
    }

    /** Replace the document only if the whole of it is still what was read. */
    method CompareAndSwap(expected: Plan, desired: Plan) returns (matched: bool)
      modifies this
      ensures matched <==> old(plan) == Some(expected)
      ensures plan == if matched then Some(desired) else old(plan)
    {
      matched := plan == Some(expected);
      if matched {
        plan := Some(desired);
      }
    }

    /**
     One control action. `before` and `after` are what other processes write between the
     read and the swap, and between the swap and the readback.
     */
    method ControlPilot(
      h: Hashes, now: int, id: Option<string>, cmd: Command, apply: bool, before: Option<Plan>, after: Option<Plan>)
      returns (r: Result<Receipt, Error>)
      modifies this
      // It writes only its patch, and only onto the plan it decided about.
      ensures plan == Stored(h, old(plan), now, id, cmd, apply, before, after)
      // A write by another process in between is reported, and never lost.
      ensures && apply && before.Some? && before != old(plan)
              && old(plan).Some? && Decide(h, old(plan).value, now, id, cmd).Success?
           ==> r == Failure(PlanChanged) && plan == before
      // It succeeds exactly when it decides and, if it applies the change, nobody interferes.
      ensures r.Success? <==>
        && old(plan).Some? && Decide(h, old(plan).value, now, id, cmd).Success?
        && (apply ==> Uncontested(
              h, old(plan).value, Patched(old(plan).value, Decide(h, old(plan).value, now, id, cmd).value.0),
              before, after))
      // A pause always ends paused, and changes nothing else.
      ensures cmd.PausePilot? && r.Success? ==> r.value.state == Paused && r.value.credit.None?
      ensures cmd.PausePilot? && r.Success? && apply && PlansDistinguished(h) ==>
        plan == Some(old(plan).value.(state := Paused))
      // A receipt of an applied action says what the action did, and was read back.
      ensures r.Success? ==>
        && old(plan).Some? && Decide(h, old(plan).value, now, id, cmd).Success?
        && var change := Decide(h, old(plan).value, now, id, cmd).value;
        && var resulting := Patched(old(plan).value, change.0);
          && r.value.action == ActionOf(cmd) && r.value.applied == apply
          && r.value.plan == h.plan(resulting) && r.value.state == resulting.state
          && r.value.lineage == change.1 && r.value.executionId == resulting.executionId
          && r.value.observed == Some(now)
          && (if cmd.PausePilot? then r.value.credit.None?
              else r.value.credit.Some? && Summary(resulting, now) == Success(r.value.credit.value))
          && (apply && PlansDistinguished(h) ==> plan == Some(resulting))
    {
      if plan.None? {
        return Failure(PlanMissing);
      }
      var read := plan.value;
      var change :- Decide(h, read, now, id, cmd);
      var resulting := Patched(read, change.0);
      if apply {
        Elsewhere(before);
        var matched := CompareAndSwap(read, resulting);
        if !matched {
          return Failure(PlanChanged);
        }
        Elsewhere(after);
        if plan.None? || h.plan(plan.value) != h.plan(resulting) {
          return Failure(AppliedReadbackChanged);
        }
      }
      var credit := None;
      if !cmd.PausePilot? {
        // The summary could raise, after the write, but never does for a change that was decided.
        DecidedCanState(h, read, now, id, cmd, change.0, change.1);
        credit := Some(Summary(resulting, now).value);
      }
      r := Success(Receipt(
        ActionOf(cmd), apply, true, true, resulting.executionId, Some(now), h.plan(resulting), resulting.state,
        credit, change.1));
    }
  }

  // ---------------------------------------------------------------------------
  // Runs
  // ---------------------------------------------------------------------------

  /** One thing that happens to the plan. */
  datatype Step =
    | Control(now: int, id: Option<string>, cmd: Command)
    | ChargeInitial(source: Source, now: int)
    | Rollover(source: Source, now: int)
    | ChargeMaintenance(source: Source, now: int)
    | Touch(eligible: bool, leaseUntil: Option<int>, leaseToken: bool, sent: int)

  /** What every charge demands of the stored plan. */
  predicate Owned(p: Plan, s: Source, now: int) {
    p.state.Active? && p.eligible && s in p.sources && ExecutionAllowed(p, now)
  }

  predicate MayChargeInitial(p: Plan, s: Source, now: int) {
    && Owned(p, s, now) && s in p.budget
    && p.budget[s].consumed < p.budget[s].physicalAttempts && p.totalConsumed < p.totalBudget
  }

  predicate MayChargeMaintenance(p: Plan, s: Source, now: int) {
    && Owned(p, s, now) && p.incrementalDay == On(Day(now)) && p.policy.Some?
    && p.incrementalConsumed < p.policy.value.total && Counter(p, s) < p.policy.value.perSource
  }

  function InitialCharged(p: Plan, s: Source): Plan
    requires s in p.budget
  {
    p.(budget := p.budget[s := p.budget[s].(consumed := p.budget[s].consumed + 1)],
       totalConsumed := p.totalConsumed + 1,
       executionConsumed := p.executionConsumed + 1)
  }

  function RolledOver(p: Plan, now: int): Plan {
    p.(incrementalDay := On(Day(now)), incrementalConsumed := 0, incrementalSource := map s | s in KNOWN :: 0)
  }

  function MaintenanceCharged(p: Plan, s: Source): Plan {
    p.(incrementalConsumed := p.incrementalConsumed + 1,
       incrementalSource := p.incrementalSource[s := Counter(p, s) + 1],
       executionConsumed := p.executionConsumed + 1)
  }

  /** The plan after a step, if the step can happen. */
  function Next(h: Hashes, p: Plan, step: Step): Option<Plan> {
    match step
    case Control(now, id, cmd) =>
      (match Decide(h, p, now, id, cmd)
       case Success(change) => Some(Patched(p, change.0))
       case Failure(_) => None)
    case ChargeInitial(s, now) => if MayChargeInitial(p, s, now) then Some(InitialCharged(p, s)) else None
    case Rollover(s, now) =>
      if Owned(p, s, now) && p.incrementalDay != On(Day(now)) then Some(RolledOver(p, now)) else None
    case ChargeMaintenance(s, now) => if MayChargeMaintenance(p, s, now) then Some(MaintenanceCharged(p, s)) else None
    case Touch(eligible, leaseUntil, leaseToken, sent) =>
      Some(p.(eligible := eligible, leaseUntil := leaseUntil, leaseToken := leaseToken, executionSent := sent))
  }

  function Run(h: Hashes, p: Plan, steps: seq<Step>): Option<Plan> {
    if steps == [] then Some(p)
    else
      var before := Run(h, p, steps[..|steps| - 1]);
      if before.None? then None else Next(h, before.value, steps[|steps| - 1])
  }

  // ---------------------------------------------------------------------------
  // One step
  // ---------------------------------------------------------------------------

  /** What a step leaves alone, and where it leaves the caps. */
  ghost predicate Kept(p: Plan, q: Plan) {
    && Tight(q) && NoCapAbove(q, p)
    && q.sources == p.sources && q.executionDay == p.executionDay && q.executionId == p.executionId
  }

  lemma NothingAbove(p: Plan)
    requires Tight(p)
    ensures NoCapAbove(p, p)
  {
    forall s ensures EntryNotAbove(p, p, s) {
      assert EntryTight(p, s);
    }
  }

  lemma BelowBelow(r: Plan, q: Plan, p: Plan)
    requires NoCapAbove(r, q) && NoCapAbove(q, p)
    ensures NoCapAbove(r, p)
  {
    forall s ensures EntryNotAbove(r, p, s) {
      assert EntryNotAbove(r, q, s) && EntryNotAbove(q, p, s);
    }
  }

  /** The plans differ in nothing that caps or counts. */
  ghost predicate SameBooks(p: Plan, q: Plan) {
    && q.datesValid == p.datesValid && q.sources == p.sources
    && q.executionId == p.executionId && q.executionDay == p.executionDay
    && q.totalBudget == p.totalBudget && q.totalConsumed == p.totalConsumed
    && q.attemptLimit == p.attemptLimit && q.executionConsumed == p.executionConsumed
    && q.budget == p.budget && q.policy == p.policy
    && q.incrementalDay == p.incrementalDay && q.incrementalConsumed == p.incrementalConsumed
    && q.incrementalSource == p.incrementalSource
  }

  lemma SameBooksKept(p: Plan, q: Plan)
    requires Tight(p) && SameBooks(p, q) && WindowTight(q)
    ensures Kept(p, q)
  {
    NothingAbove(p);
    forall s ensures EntryTight(q, s) && EntryNotAbove(q, p, s) {
      assert EntryTight(p, s) && EntryNotAbove(p, p, s);
    }
  }

  lemma PrepareKeeps(p: Plan, now: int, id: Option<string>, patch: Patch)
    requires Tight(p) && Prepare(p, now, id) == Success(patch)
    ensures Kept(p, Patched(p, patch)) && SameCounters(Patched(p, patch), p)
  {
    PrepareTightens(p, now, id, patch);
    PrepareRaisesNothing(p, now, id, patch);
    var m := PreparedFrom(p, now, id, patch);
  }

  lemma InitialChargeKeeps(p: Plan, s: Source, now: int)
    requires Tight(p) && MayChargeInitial(p, s, now)
    ensures Kept(p, InitialCharged(p, s))
  {
    NothingAbove(p);
    var q := InitialCharged(p, s);
    forall other ensures EntryTight(q, other) && EntryNotAbove(q, p, other) {
      assert EntryTight(p, other) && EntryNotAbove(p, p, other);
    }
    assert MaintenanceTight(q, q.executionDay.value);
  }

  lemma RolloverKeeps(p: Plan, s: Source, now: int)
    requires Tight(p) && Owned(p, s, now) && p.incrementalDay != On(Day(now))
    ensures Kept(p, RolledOver(p, now))
  {
    NothingAbove(p);
    var q := RolledOver(p, now);
    forall other ensures EntryTight(q, other) && EntryNotAbove(q, p, other) {
      assert EntryTight(p, other) && EntryNotAbove(p, p, other);
    }
    assert q.incrementalSource.Keys == KNOWN;
    forall other | other in q.sources
      ensures q.policy.value.perSource <= DaySpentOn(q, Day(now), other) + MAINTENANCE_SOURCE_GRANT
    {
      assert DaySpentOn(p, Day(now), other) == 0;
    }
  }

  lemma MaintenanceChargeTight(p: Plan, s: Source, day: int)
    requires MaintenanceTight(p, day) && p.incrementalDay == On(day) && Known(s)
    ensures MaintenanceTight(MaintenanceCharged(p, s), day)
  {
    var q := MaintenanceCharged(p, s);
    assert s in KNOWN && q.incrementalSource.Keys == KNOWN;
    forall other | other in q.sources
      ensures q.policy.value.perSource <= DaySpentOn(q, day, other) + MAINTENANCE_SOURCE_GRANT
    {
      assert DaySpentOn(p, day, other) <= DaySpentOn(q, day, other);
    }
  }

  lemma MaintenanceChargeKeeps(p: Plan, s: Source, now: int)
    requires Tight(p) && MayChargeMaintenance(p, s, now)
    ensures Kept(p, MaintenanceCharged(p, s))
  {
    NothingAbove(p);
    var q := MaintenanceCharged(p, s);
    forall other ensures EntryTight(q, other) && EntryNotAbove(q, p, other) {
      assert EntryTight(p, other) && EntryNotAbove(p, p, other);
    }
    assert s in INITIAL_SOURCES;
    MaintenanceChargeTight(p, s, Day(now));
  }

  /** A control action changes caps only by preparing, and the deadline only within the day. */
  lemma DecidedPatch(h: Hashes, p: Plan, now: int, id: Option<string>, cmd: Command, patch: Patch,
    lineage: Option<Lineage>)
    requires Decide(h, p, now, id, cmd) == Success((patch, lineage))
    ensures match patch
      case Prepared(_) => Prepare(p, now, id) == Success(patch)
      case SetUntil(until) => LaterToday(p, now, until)
      case SetState(_) => true
  {
    match cmd
    case ExtendPilot(prepared, paused, authority, verified) =>
      ExtensionStaysToday(h, p, now, prepared, paused, authority, verified, (patch, lineage.value));
    case ExtendAgain(prepared, paused, authority, verified, origin, parent, consumption, earlier) =>
      ChainStaysToday(h, p, now, prepared, paused, authority, verified, origin, parent, consumption, earlier,
        (patch, lineage.value));
    case PreparePilot =>
    case PausePilot =>
    case ActivatePilot(_, _) =>
    case ResumePilot(_, _, _, _) =>
  }

  /** What each action makes of the plan. */
  lemma DecidedPlan(h: Hashes, p: Plan, now: int, id: Option<string>, cmd: Command, patch: Patch,
    lineage: Option<Lineage>)
    requires Decide(h, p, now, id, cmd) == Success((patch, lineage))
    ensures p.identity
    ensures var q := Patched(p, patch);
      match cmd
      case PreparePilot => q.state == Paused && q.executionDay == Some(Day(now)) && SameCounters(q, p)
      case PausePilot => q == p.(state := Paused)
      case ActivatePilot(_, _) => p.state == Paused && q == p.(state := Active)
      case ResumePilot(_, _, _, _) => p.state == Paused && q == p.(state := Active)
      case ExtendPilot(_, _, _, _) =>
        p.state == Paused && q == p.(executionUntil := q.executionUntil) && LaterToday(p, now, q.executionUntil.value)
      case ExtendAgain(_, _, _, _, _, _, _, _) =>
        p.state == Paused && q == p.(executionUntil := q.executionUntil) && LaterToday(p, now, q.executionUntil.value)
  {
    match cmd
    case PreparePilot =>
      PrepareTightens(p, now, id, patch);
      PrepareRaisesNothing(p, now, id, patch);
    case PausePilot =>
    case ActivatePilot(_, _) =>
    case ResumePilot(prepared, paused, verified, route) =>
      var b, started, end := Resumed(h, p, now, prepared, paused, verified, route);
    case ExtendPilot(prepared, paused, authority, verified) =>
      ExtensionStaysToday(h, p, now, prepared, paused, authority, verified, (patch, lineage.value));
    case ExtendAgain(prepared, paused, authority, verified, origin, parent, consumption, earlier) =>
      var r := (patch, lineage.value);
      ChainStaysToday(h, p, now, prepared, paused, authority, verified, origin, parent, consumption, earlier, r);
      var a := Chained(h, p, now, prepared, paused, authority, verified, origin, parent, consumption, earlier, r);
      ChainParentKnown(h, p, now, prepared.document.value, paused.document.value, origin.document.value,
        parent.document.value, prepared.pin, origin.pin, consumption);
  }

  /** Stopping needs no receipt, window, lease or caps: only the identity of the plan. */
  lemma PauseDecidesIff(h: Hashes, p: Plan, now: int, id: Option<string>)
    ensures Decide(h, p, now, id, PausePilot).Success? <==> p.identity && (id.Some? ==> p.executionId == id)
  {
  }

  /** The actions that can set a plan running. */
  predicate Starts(step: Step) {
    step.Control? && (step.cmd.ActivatePilot? || step.cmd.ResumePilot?)
  }

  predicate Charges(step: Step) {
    step.ChargeInitial? || step.Rollover? || step.ChargeMaintenance?
  }

  /** Only an activation or a resume sets a plan running, and only a running plan is charged. */
  lemma OnlyStartsStart(h: Hashes, p: Plan, step: Step, q: Plan)
    requires Next(h, p, step) == Some(q)
    ensures p.state == Paused && q.state == Active ==> Starts(step)
    ensures p.state == Paused ==> !Charges(step)
    ensures step.Control? && step.cmd.PausePilot? ==> q == p.(state := Paused)
  {
    if step.Control? {
      var change := Decide(h, p, step.now, step.id, step.cmd).value;
      DecidedPlan(h, p, step.now, step.id, step.cmd, change.0, change.1);
    }
  }

  /** From a pause to the next activation or resume, nothing is charged and the plan stays paused. */
  lemma {:induction false} NothingChargedWhilePaused(h: Hashes, p: Plan, steps: seq<Step>, q: Plan)
    requires p.state == Paused && Run(h, p, steps) == Some(q)
    requires forall k | 0 <= k < |steps| :: !Starts(steps[k])
    ensures q.state == Paused
    ensures forall k | 0 <= k < |steps| :: !Charges(steps[k])
  {
    if steps != [] {
      var n := |steps| - 1;
      var mid := Run(h, p, steps[..n]).value;
      NothingChargedWhilePaused(h, p, steps[..n], mid);
      OnlyStartsStart(h, mid, steps[n], q);
      forall k | 0 <= k < |steps| ensures !Charges(steps[k]) {
        if k < n {
          assert steps[..n][k] == steps[k];
        }
      }
    }
  }

  lemma ControlKeeps(h: Hashes, p: Plan, now: int, id: Option<string>, cmd: Command, patch: Patch,
    lineage: Option<Lineage>)
    requires Tight(p) && Decide(h, p, now, id, cmd) == Success((patch, lineage))
    ensures Kept(p, Patched(p, patch)) && SameCounters(Patched(p, patch), p)
  {
    DecidedPatch(h, p, now, id, cmd, patch, lineage);
    if patch.Prepared? {
      PrepareKeeps(p, now, id, patch);
    } else {
      SameBooksKept(p, Patched(p, patch));
    }
  }

  lemma NextKeeps(h: Hashes, p: Plan, step: Step, q: Plan)
    requires Tight(p) && Next(h, p, step) == Some(q)
    ensures Kept(p, q)
  {
    match step
    case Control(now, id, cmd) =>
      var change := Decide(h, p, now, id, cmd).value;
      ControlKeeps(h, p, now, id, cmd, change.0, change.1);
    case ChargeInitial(s, now) => InitialChargeKeeps(p, s, now);
    case Rollover(s, now) => RolloverKeeps(p, s, now);
    case ChargeMaintenance(s, now) => MaintenanceChargeKeeps(p, s, now);
    case Touch(_, _, _, _) => SameBooksKept(p, q);
  }

  // ---------------------------------------------------------------------------
  // Whole runs
  // ---------------------------------------------------------------------------

  predicate IsInitial(step: Step, s: Source) {
    step.ChargeInitial? && step.source == s
  }

  predicate IsMaintenance(step: Step, s: Source) {
    step.ChargeMaintenance? && step.source == s
  }

  /** The charges a step takes from a source's initial budget, or from its daily maintenance. */
  function InitialOn(steps: seq<Step>, s: Source): nat {
    if steps == [] then 0
    else InitialOn(steps[..|steps| - 1], s) + if IsInitial(steps[|steps| - 1], s) then 1 else 0
  }

  function MaintenanceOn(steps: seq<Step>, s: Source): nat {
    if steps == [] then 0
    else MaintenanceOn(steps[..|steps| - 1], s) + if IsMaintenance(steps[|steps| - 1], s) then 1 else 0
  }

  function InitialCharges(steps: seq<Step>): nat {
    if steps == [] then 0
    else InitialCharges(steps[..|steps| - 1]) + if steps[|steps| - 1].ChargeInitial? then 1 else 0
  }

  function MaintenanceCharges(steps: seq<Step>): nat {
    if steps == [] then 0
    else MaintenanceCharges(steps[..|steps| - 1]) + if steps[|steps| - 1].ChargeMaintenance? then 1 else 0
  }

  ghost predicate SourceBooked(p: Plan, steps: seq<Step>, q: Plan, s: Source) {
    Known(s) && p.executionDay.Some? ==>
      && s in p.budget && s in q.budget
      && q.budget[s].consumed == p.budget[s].consumed + InitialOn(steps, s)
      && InitialOn(steps, s) <= InitialGrant(s)
      && DaySpentOn(q, p.executionDay.value, s) == DaySpentOn(p, p.executionDay.value, s) + MaintenanceOn(steps, s)
      && (s in p.sources ==> MaintenanceOn(steps, s) <= MAINTENANCE_SOURCE_GRANT)
  }

  ghost predicate TotalsBooked(p: Plan, steps: seq<Step>, q: Plan) {
    && p.executionDay.Some?
    && q.totalConsumed == p.totalConsumed + InitialCharges(steps)
    && q.executionConsumed == p.executionConsumed + InitialCharges(steps) + MaintenanceCharges(steps)
    && DaySpent(q, p.executionDay.value) == DaySpent(p, p.executionDay.value) + MaintenanceCharges(steps)
    && InitialCharges(steps) <= TOTAL_GRANT
    && MaintenanceCharges(steps) <= MAINTENANCE_GRANT
    && InitialCharges(steps) + MaintenanceCharges(steps) <= ATTEMPT_GRANT
  }

  /** The counters record every charge of the run, and no count exceeds its grant. */
  ghost predicate Booked(p: Plan, steps: seq<Step>, q: Plan) {
    TotalsBooked(p, steps, q) && forall s :: SourceBooked(p, steps, q, s)
  }

  lemma TotalsBookedNext(h: Hashes, p: Plan, steps: seq<Step>, mid: Plan, step: Step, q: Plan)
    requires Tight(p) && Tight(mid) && NoCapAbove(mid, p) && mid.executionDay == p.executionDay
    requires TotalsBooked(p, steps, mid) && Next(h, mid, step) == Some(q)
    requires step.Control? ==> SameCounters(q, mid)
    ensures TotalsBooked(p, steps + [step], q)
  {
    assert (steps + [step])[..|steps|] == steps;
  }

  /** What one step adds to the counters of one source. */
  ghost predicate SourceAdds(p: Plan, step: Step, q: Plan, s: Source, day: int) {
    && s in q.budget && s in p.budget
    && q.budget[s].consumed == p.budget[s].consumed + (if IsInitial(step, s) then 1 else 0)
    && DaySpentOn(q, day, s) == DaySpentOn(p, day, s) + (if IsMaintenance(step, s) then 1 else 0)
    && (IsInitial(step, s) ==> p.budget[s].consumed < p.budget[s].physicalAttempts)
    && (IsMaintenance(step, s) ==> p.policy.Some? && DaySpentOn(p, day, s) < p.policy.value.perSource)
  }

  lemma ChargeAdds(h: Hashes, p: Plan, step: Step, q: Plan, s: Source, day: int)
    requires EntryTight(p, s) && Known(s) && p.executionDay == Some(day)
    requires step.ChargeInitial? || step.ChargeMaintenance? || step.Rollover?
    requires Next(h, p, step) == Some(q)
    ensures SourceAdds(p, step, q, s, day)
  {
    assert s in KNOWN;
  }

  lemma StepAdds(h: Hashes, p: Plan, step: Step, q: Plan, s: Source, day: int)
    requires EntryTight(p, s) && Known(s) && p.executionDay == Some(day)
    requires Next(h, p, step) == Some(q)
    requires step.Control? ==> SameCounters(q, p)
    ensures SourceAdds(p, step, q, s, day)
  {
    if step.Control? {
      assert SameConsumed(q, p, s);
    } else if step.ChargeInitial? || step.ChargeMaintenance? || step.Rollover? {
      ChargeAdds(h, p, step, q, s, day);
    }
  }

  lemma SourceBookedNext(h: Hashes, p: Plan, steps: seq<Step>, mid: Plan, step: Step, q: Plan, s: Source)
    requires WindowTight(p) && EntryTight(p, s) && EntryNotAbove(mid, p, s) && mid.executionDay == p.executionDay
    requires p.policy.Some? && mid.policy.Some? && mid.policy.value.perSource <= p.policy.value.perSource
    requires s in p.sources ==>
      p.policy.value.perSource <= DaySpentOn(p, p.executionDay.value, s) + MAINTENANCE_SOURCE_GRANT
    requires SourceBooked(p, steps, mid, s)
    requires Known(s) ==> SourceAdds(mid, step, q, s, p.executionDay.value)
    ensures SourceBooked(p, steps + [step], q, s)
  {
    assert (steps + [step])[..|steps|] == steps;
  }

  /**
   Over every run of control actions and charges from a plan whose caps are tight: no cap
   rises, the deadline stays on the execution day, the counters record every charge, and
   no count of charges exceeds the grant of one preparation.
   */
  lemma {:induction false} RunsStayWithinGrants(h: Hashes, p: Plan, steps: seq<Step>, q: Plan)
    requires Tight(p) && Run(h, p, steps) == Some(q)
    ensures Kept(p, q) && Booked(p, steps, q)
  {
    if steps == [] {
      NothingAbove(p);
      forall s ensures SourceBooked(p, steps, q, s) {
        assert EntryTight(p, s);
      }
    } else {
      var n := |steps| - 1;
      var mid := Run(h, p, steps[..n]).value;
      RunsStayWithinGrants(h, p, steps[..n], mid);
      NextKeeps(h, mid, steps[n], q);
      BelowBelow(q, mid, p);
      ControlCounts(h, mid, steps[n], q);
      assert steps[..n] + [steps[n]] == steps;
      TotalsBookedNext(h, p, steps[..n], mid, steps[n], q);
      forall s ensures SourceBooked(p, steps, q, s) {
        assert SourceBooked(p, steps[..n], mid, s) && EntryTight(p, s) && EntryTight(mid, s)
          && EntryNotAbove(mid, p, s);
        if Known(s) { StepAdds(h, mid, steps[n], q, s, p.executionDay.value); }
        SourceBookedNext(h, p, steps[..n], mid, steps[n], q, s);
      }
    }
  }

  lemma ControlCounts(h: Hashes, p: Plan, step: Step, q: Plan)
    requires Tight(p) && Next(h, p, step) == Some(q)
    ensures step.Control? ==> SameCounters(q, p)
  {
    if step.Control? {
      var change := Decide(h, p, step.now, step.id, step.cmd).value;
      ControlKeeps(h, p, step.now, step.id, step.cmd, change.0, change.1);
    }
  }

  /** Everything a run may spend after a preparation, from any plan it accepts. */
  lemma PreparedRunsStayWithinGrants(
    h: Hashes, p: Plan, now: int, id: Option<string>, patch: Patch, steps: seq<Step>, q: Plan)
    requires Prepare(p, now, id) == Success(patch) && Run(h, Patched(p, patch), steps) == Some(q)
    ensures NoCapAbove(q, p) && Booked(Patched(p, patch), steps, q)
    ensures q.sources == Scoped(INITIAL_SOURCES, p.sources)
    ensures q.executionUntil.Some? && q.executionUntil.value <= Closing(Day(now))
    ensures InitialOn(steps, FullWithdrawals) == 0
  {
    var start := Patched(p, patch);
    PrepareTightens(p, now, id, patch);
    PrepareRaisesNothing(p, now, id, patch);
    RunsStayWithinGrants(h, start, steps, q);
    BelowBelow(q, start, p);
    var m := PreparedFrom(p, now, id, patch);
    assert SourceBooked(start, steps, q, FullWithdrawals);
  }

  /** The same in numbers: what a run may spend after a preparation. */
  lemma PreparedRunsInNumbers(
    h: Hashes, p: Plan, now: int, id: Option<string>, patch: Patch, steps: seq<Step>, q: Plan)
    requires Prepare(p, now, id) == Success(patch) && Run(h, Patched(p, patch), steps) == Some(q)
    ensures InitialOn(steps, Orders) <= 800 && InitialOn(steps, Questions) <= 150 && InitialOn(steps, Shipments) <= 250
    ensures InitialOn(steps, Messages) <= 300 && InitialOn(steps, ClaimsReturns) <= 500
    ensures InitialOn(steps, FullWithdrawals) == 0
    ensures InitialCharges(steps) <= 2000 && MaintenanceCharges(steps) <= 500
    ensures InitialCharges(steps) + MaintenanceCharges(steps) <= 2500
    ensures forall s | s in q.sources :: MaintenanceOn(steps, s) <= 300
    ensures q.executionUntil.Some? && q.executionUntil.value <= (now / 86_400_000_000 + 1) * 86_400_000_000
  {
    PreparedRunsStayWithinGrants(h, p, now, id, patch, steps, q);
    PreparedScope(p, now, id, patch);
    BookedInNumbers(Patched(p, patch), steps, q);
  }

  lemma BookedInNumbers(p: Plan, steps: seq<Step>, q: Plan)
    requires Booked(p, steps, q) && forall s | s in p.sources :: Known(s)
    ensures InitialOn(steps, Orders) <= 800 && InitialOn(steps, Questions) <= 150 && InitialOn(steps, Shipments) <= 250
    ensures InitialOn(steps, Messages) <= 300 && InitialOn(steps, ClaimsReturns) <= 500
    ensures InitialCharges(steps) <= 2000 && MaintenanceCharges(steps) <= 500
    ensures InitialCharges(steps) + MaintenanceCharges(steps) <= 2500
    ensures forall s | s in p.sources :: MaintenanceOn(steps, s) <= 300
  {
    WithinGrant(p, steps, q, Orders);
    WithinGrant(p, steps, q, Questions);
    WithinGrant(p, steps, q, Shipments);
    WithinGrant(p, steps, q, Messages);
    WithinGrant(p, steps, q, ClaimsReturns);
    forall s | s in p.sources ensures MaintenanceOn(steps, s) <= 300 {
      WithinGrant(p, steps, q, s);
    }
  }

  lemma WithinGrant(p: Plan, steps: seq<Step>, q: Plan, s: Source)
    requires Booked(p, steps, q) && Known(s)
    ensures InitialOn(steps, s) <= InitialGrant(s)
    ensures s in p.sources ==> MaintenanceOn(steps, s) <= MAINTENANCE_SOURCE_GRANT
  {
    assert SourceBooked(p, steps, q, s);
  }

  lemma PreparedScope(p: Plan, now: int, id: Option<string>, patch: Patch)
    requires Prepare(p, now, id) == Success(patch)
    ensures var q := Patched(p, patch);
      && q.executionDay.Some? && q.sources == Scoped(INITIAL_SOURCES, p.sources)
      && forall s | s in q.sources :: Known(s)
  {
    PrepareTightens(p, now, id, patch);
    var m := PreparedFrom(p, now, id, patch);
  }

  /** Every initial attempt is charged to one of the five initial sources, and maintenance likewise. */
  lemma {:induction false} ChargesSplitBySource(h: Hashes, p: Plan, steps: seq<Step>, q: Plan)
    requires Tight(p) && Run(h, p, steps) == Some(q)
    ensures InitialCharges(steps)
         == InitialOn(steps, Orders) + InitialOn(steps, Questions) + InitialOn(steps, Shipments)
            + InitialOn(steps, Messages) + InitialOn(steps, ClaimsReturns)
    ensures MaintenanceCharges(steps)
         == MaintenanceOn(steps, Orders) + MaintenanceOn(steps, Questions) + MaintenanceOn(steps, Shipments)
            + MaintenanceOn(steps, Messages) + MaintenanceOn(steps, ClaimsReturns)
  {
    if steps != [] {
      var n := |steps| - 1;
      var mid := Run(h, p, steps[..n]).value;
      ChargesSplitBySource(h, p, steps[..n], mid);
      RunsStayWithinGrants(h, p, steps[..n], mid);
      ChargedIsInitial(h, mid, steps[n], q);
    }
  }

  lemma ChargedIsInitial(h: Hashes, p: Plan, step: Step, q: Plan)
    requires ScopeTight(p) && Next(h, p, step) == Some(q)
    ensures step.ChargeInitial? || step.ChargeMaintenance? ==>
      step.source in {Orders, Questions, Shipments, Messages, ClaimsReturns}
  {
    if step.ChargeInitial? || step.ChargeMaintenance? {
      assert step.source in INITIAL_SOURCES;
    }
  }

  /** A prepared plan nobody changed activates at any later instant of its window. */
  lemma PreparedPlanActivates(
    h: Hashes, p: Plan, now: int, id: Option<string>, patch: Patch, later: int, prepared: Pinned<Receipt>)
    requires Prepare(p, now, id) == Success(patch)
    requires PinHolds(h, prepared) && BindsPlan(h, prepared.document.value, Patched(p, patch))
    requires now <= later < patch.caps.until
    requires LeaseError(p, later).None? && p.executionConsumed < patch.caps.attemptLimit
    ensures Activate(h, Patched(p, patch), later, prepared, true).Success?
  {
    var q := Patched(p, patch);
    PrepareTightens(p, now, id, patch);
    var m := PreparedFrom(p, now, id, patch);
    SameDayUntil(now, later, patch.caps.until);
    assert ReadyToRun(q, later) by {
      assert q.executionConsumed == p.executionConsumed && q.eligible;
    }
    ActivatesIff(h, q, later, prepared, true);
  }

  lemma SameDayUntil(now: int, later: int, until: int)
    requires now <= later < until <= Closing(Day(now))
    ensures Day(later) == Day(now)
  {
  }
}
