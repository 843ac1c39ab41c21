/**
 The TERM-only pause of the containers and its recovery: what is journalled before what is
 done, against a container runtime, a clock and a disk that may answer anything.
 Times are milliseconds.
 */
module PauseProtocol {
  import opened Prelude

  datatype Role = Api | Worker | Dispatcher

  /** What an inspection shows; `troubled` is a killed, restarting or frozen container. */
  datatype Inspection = Inspection(
    id: string, image: string, config: string, troubled: bool, startedAt: string, restartCount: int,
    running: bool, exitCode: int)

  /** One journalled target. */
  datatype Record = Record(
    id: string, image: string, config: string, role: Role, startedAt: string, restartCount: int,
    marked: bool, stopped: bool, resumed: bool)

  datatype Error =
    | IdentityChanged | ConfigChanged | ContainerState | GenerationChanged
    | NonzeroGracefulExit | GraceExhausted | UnexpectedStart | ResumeNotRunning
    | DriverFailed | SaveFailed

  function Verify(s: Inspection, r: Record, generation: bool): Option<Error> {
    if s.id != r.id || s.image != r.image then Some(IdentityChanged)
    else if s.config != r.config then Some(ConfigChanged)
    else if s.troubled then Some(ContainerState)
    else if generation && (s.startedAt != r.startedAt || s.restartCount != r.restartCount) then Some(GenerationChanged)
    else None
  }

  /** The inspected container is the recorded one, and nothing is wrong with it. */
  ghost predicate SameContainer(s: Inspection, r: Record) {
    s.id == r.id && s.image == r.image && s.config == r.config && !s.troubled
  }

  /** It has not been started again since it was recorded, by anybody. */
  ghost predicate InGeneration(s: Inspection, r: Record) {
    SameContainer(s, r) && s.startedAt == r.startedAt && s.restartCount == r.restartCount
  }

  /** What the check accepts, and with which error it refuses the rest. */
  lemma VerifiesIff(s: Inspection, r: Record, generation: bool)
    ensures Verify(s, r, generation).None? <==> if generation then InGeneration(s, r) else SameContainer(s, r)
    ensures var broken := Verify(s, r, generation);
      broken.Some? ==> FoundBy(broken.value) && Explains(Saw(s), broken.value, r)
  {
  }

  /** The errors of an inspection and its check. */
  ghost predicate FoundBy(error: Error) {
    error in {DriverFailed, IdentityChanged, ConfigChanged, ContainerState, GenerationChanged}
  }

  /** What the last event must have been for an operation on a target to fail with an error. */
  ghost predicate Explains(e: Event, error: Error, r: Record) {
    match error
    case DriverFailed => e == Raised
    case SaveFailed => e == Raised
    case IdentityChanged => e.Saw? && (e.state.id != r.id || e.state.image != r.image)
    case ConfigChanged => e.Saw? && e.state.config != r.config
    case ContainerState => e.Saw? && e.state.troubled
    case GenerationChanged => e.Saw? && SameContainer(e.state, r) && !InGeneration(e.state, r)
    case NonzeroGracefulExit =>
      || e == ReadLogs(false)
      || (SeenStopped(e, r) && e.state.exitCode != 0 && (e.state.exitCode == 143 ==> !r.role.Api?))
    case GraceExhausted => SeenRunning(e, r)
    case UnexpectedStart => SeenRunning(e, r)
    case ResumeNotRunning => e.Saw? && SameContainer(e.state, r) && !e.state.running
  }

  /** Something happened since a position, and the last event explains the error. */
  ghost predicate Explained(seen: seq<Event>, from: nat, error: Error, r: Record) {
    |seen| > from && Explains(seen[|seen| - 1], error, r)
  }

  /**
   What is seen and done, in order. `Watched` ends a time of watching, and `Raised` is a call on
   the driver or the disk that raises. A call is listed even if its confirmation is lost.
   */
  datatype Event =
    | Saw(state: Inspection)
    | Termed(target: Record)
    | ChildTermed(target: Record)
    | ReadLogs(complete: bool)
    | Started(target: Record)
    | Saved(journal: seq<Record>)
    | Loaded(journal: seq<Record>)
    | Raised
    | Watched(target: Record, since: int, until: int)

  /** The journal on disk after the events. */
  function OnDisk(initial: seq<Record>, log: seq<Event>): seq<Record> {
    if log == [] then initial
    else match log[|log| - 1]
      case Saved(journal) => journal
      case Loaded(journal) => journal
      case _ => OnDisk(initial, log[..|log| - 1])
  }

  /** A stop seen in the generation that was recorded. */
  ghost predicate SeenStopped(e: Event, target: Record) {
    e.Saw? && InGeneration(e.state, target) && !e.state.running
  }

  ghost predicate SeenRunning(e: Event, target: Record) {
    e.Saw? && InGeneration(e.state, target) && e.state.running
  }

  ghost predicate SeenInGeneration(e: Event, target: Record) {
    SeenStopped(e, target) || SeenRunning(e, target)
  }

  /** The journal just written to disk holds the target, marked. */
  ghost predicate JustJournalled(e: Event, target: Record) {
    e.Saved? && target in e.journal && target.marked
  }

  /** Whether an event may follow the ones before it. */
  ghost predicate Allowed(before: seq<Event>, e: Event) {
    var n := |before|;
    match e
    case Termed(target) => n > 1 && JustJournalled(before[n - 1], target) && SeenInGeneration(before[n - 2], target)
    case ChildTermed(target) =>
      target.role.Api? && n > 1 && SeenRunning(before[n - 1], target) && before[n - 2] == Termed(target)
    case Started(target) => target.marked && !target.resumed && n > 0 && SeenStopped(before[n - 1], target)
    case _ => true
  }

  /**
   The discipline of the protocol: no TERM but right after the journal with its target marked
   was written to disk, and that right after an inspection in the recorded generation; no
   TERM to an API's child but right after that, to a target then seen running; and no start
   but of a marked, unresumed target that the event just before saw stopped in its generation.
   */
  ghost predicate Disciplined(log: seq<Event>) {
    forall k | 0 <= k < |log| :: AllowedAt(log, k)
  }

  ghost predicate AllowedAt(log: seq<Event>, k: nat)
    requires k < |log|
  {
    Allowed(log[..k], log[k])
  }

  lemma DisciplinedAfter(initial: seq<Record>, log: seq<Event>, e: Event)
    requires Disciplined(log) && Allowed(log, e)
    ensures Disciplined(log + [e])
    ensures OnDisk(initial, log + [e]) ==
      match e case Saved(journal) => journal case Loaded(journal) => journal case _ => OnDisk(initial, log)
  {
    var more := log + [e];
    assert more[..|log|] == log;
    forall k | 0 <= k < |more| ensures AllowedAt(more, k) {
      if k < |log| {
        assert AllowedAt(log, k);
        assert more[..k] == log[..k];
      }
    }
  }

  /** Nothing is left to recover of the record. */
  predicate Settled(r: Record) {
    !r.marked || r.resumed
  }

  /** The records name the same targets. */
  ghost predicate SameTarget(r: Record, s: Record) {
    r.(marked := s.marked, stopped := s.stopped, resumed := s.resumed) == s
  }

  class Operator {
    ghost const initial: seq<Record>
    var clock: int
    var records: seq<Record>
    ghost var log: seq<Event>

    constructor (journal: seq<Record>, clock: int)
      ensures Valid() && records == journal && initial == journal && log == [] && this.clock == clock
    {
      initial := journal;
      records := journal;
      log := [];
      this.clock := clock;
    }

    ghost predicate Valid()
      reads this
    {
      Disciplined(log)
    }

    // The driver: every call may fail, and any answer is possible.

    method Inspect() returns (s: Result<Inspection, Error>)
      requires Valid()
      modifies this`clock, this`log
      ensures Valid() && clock >= old(clock)
      ensures log == old(log) + [if s.Success? then Saw(s.value) else Raised]
      ensures s.Failure? ==> s.error == DriverFailed
      ensures OnDisk(initial, log) == OnDisk(initial, old(log))
    {
      clock := Later(clock, 0);
      var answered: bool := *;
      if !answered {
        DisciplinedAfter(initial, log, Raised);
        log := log + [Raised];
        return Failure(DriverFailed);
      }
      var state: Inspection := *;
      DisciplinedAfter(initial, log, Saw(state));
      log := log + [Saw(state)];
      s := Success(state);
    }

    static method Later(time: int, least: nat) returns (later: int)
      ensures later >= time + least
    {
      var extra: int := *;
      later := time + least + Max(extra, 0);
    }

    /** A call on a container, confirmed or not. */
    method Call(e: Event) returns (ok: bool)
      requires Valid() && Allowed(log, e) && !e.Saved? && !e.Loaded?
      modifies this`clock, this`log
      ensures Valid() && clock >= old(clock) && log == old(log) + (if ok then [e] else [e, Raised])
      ensures OnDisk(initial, log) == OnDisk(initial, old(log))
    {
      DisciplinedAfter(initial, log, e);
      log := log + [e];
      clock := Later(clock, 0);
      ok := *;
      if !ok {
        DisciplinedAfter(initial, log, Raised);
        log := log + [Raised];
      }
    }

    method Sleep(milliseconds: nat)
      modifies this`clock
      ensures clock >= old(clock) + milliseconds
    {
      clock := Later(clock, milliseconds);
    }

    /** Replace the journal on disk; when it raises, it may or may not have been replaced. */
    method Save() returns (ok: bool)
      requires Valid()
      modifies this`log
      ensures Valid()
      ensures !ok ==> log == old(log) + [Raised] || log == old(log) + [Saved(records), Raised]
      ensures ok ==> log == old(log) + [Saved(records)] && OnDisk(initial, log) == records
    {
      var written: bool := *;
      if written {
        DisciplinedAfter(initial, log, Saved(records));
        log := log + [Saved(records)];
      }
      ok := *;
      ok := ok && written;
      if !ok {
        DisciplinedAfter(initial, log, Raised);
        log := log + [Raised];
      }
    }

    /** Read the journal again; another process may have written it meanwhile. */
    method Load()
      requires Valid()
      modifies this`log, this`records
      ensures Valid() && OnDisk(initial, log) == records
    {
      var journal: seq<Record> := *;
      DisciplinedAfter(initial, log, Loaded(journal));
      log := log + [Loaded(journal)];
      records := journal;
    }

    // The protocol.

    /** Only the flags of record i may differ. */
    twostate predicate OnlyRecord(i: nat)
      reads this
    {
      && |records| == |old(records)|
      && (forall j | 0 <= j < |records| && j != i :: records[j] == old(records[j]))
      && (i < |records| ==> SameTarget(old(records[i]), records[i]))
    }

    /** An inspection that verifies in the recorded generation. */
    method Check(target: Record) returns (s: Result<Inspection, Error>)
      requires Valid()
      modifies this`clock, this`log
      ensures Valid() && clock >= old(clock) && OnDisk(initial, log) == OnDisk(initial, old(log))
      ensures s.Success? ==> log == old(log) + [Saw(s.value)] && InGeneration(s.value, target)
      ensures s.Failure? ==>
        && |log| == |old(log)| + 1 && old(log) < log && Explained(log, |old(log)|, s.error, target)
        && FoundBy(s.error)
    {
      var state :- Inspect();
      var broken := Verify(state, target, true);
      VerifiesIff(state, target, true);
      if broken.Some? {
        return Failure(broken.value);
      }
      s := Success(state);
    }

    /** Start the record's container if it is stopped; false while it still drains. */
    method Resume(i: nat, timeout: nat) returns (r: Result<bool, Error>)
      requires Valid() && i < |records|
      modifies this
      ensures Valid() && OnlyRecord(i) && clock >= old(clock)
      ensures r.Success? && r.value ==> Settled(records[i])
      ensures r == Success(false) ==>
        && records == old(records) && clock >= old(clock) + timeout
        && OnDisk(initial, log) == OnDisk(initial, old(log))
        && old(log) < log && SeenRunning(log[|log| - 1], records[i])
      ensures Settled(old(records[i])) ==> r == Success(true) && records == old(records) && log == old(log)
      ensures r.Success? && r.value && !Settled(old(records[i])) ==>
        && records[i] == old(records[i]).(resumed := true) && OnDisk(initial, log) == records
        && old(log) <= log && Restarted(log, |old(log)|, old(records[i]), records)
      ensures old(log) <= log
      ensures r.Failure? ==> Explained(log, |old(log)|, r.error, old(records[i]))
    {
      if !records[i].marked || records[i].resumed {
        return Success(true);
      }
      var deadline := clock + timeout;
      while true
        invariant Valid() && records == old(records) && clock >= old(clock) && old(log) <= log
        invariant OnDisk(initial, log) == OnDisk(initial, old(log))
        decreases deadline - clock
      {
        var state :- Check(records[i]);
        if !state.running {
          assert SeenStopped(log[|log| - 1], records[i]);
          var started := Call(Started(records[i]));
          if !started {
            return Failure(DriverFailed);
          }
          r := ConfirmStart(i);
          return;
        }
        if clock >= deadline {
          return Success(false);
        }
        Sleep(250);
      }
    }

    /** A container that was seen stopped is started, seen running, and journalled as resumed. */
    static ghost predicate Restarted(seen: seq<Event>, from: nat, target: Record, journal: seq<Record>) {
      var n := |seen|;
      && n >= from + 4
      && SeenStopped(seen[n - 4], target) && seen[n - 3] == Started(target)
      && seen[n - 2].Saw? && SameContainer(seen[n - 2].state, target) && seen[n - 2].state.running
      && seen[n - 1] == Saved(journal)
    }

    method ConfirmStart(i: nat) returns (r: Result<bool, Error>)
      requires Valid() && i < |records|
      modifies this
      ensures Valid() && OnlyRecord(i) && clock >= old(clock) && old(log) <= log
      ensures r.Failure? ==> Explained(log, |old(log)|, r.error, old(records[i]))
      ensures r.Success? ==>
        && r.value && records[i] == old(records[i]).(resumed := true) && OnDisk(initial, log) == records
        && |log| == |old(log)| + 2 && log[|log| - 1] == Saved(records)
        && log[|log| - 2].Saw? && SameContainer(log[|log| - 2].state, records[i]) && log[|log| - 2].state.running
    {
      var current :- Inspect();
      var broken := Verify(current, records[i], false);
      VerifiesIff(current, records[i], false);
      if broken.Some? {
        return Failure(broken.value);
      }
      if !current.running {
        return Failure(ResumeNotRunning);
      }
      records := records[i := records[i].(resumed := true)];
      var saved := Save();
      r := if saved then Success(true) else Failure(SaveFailed);
    }

    /** Everything marked has been resumed. */
    predicate Recovered()
      reads this
    {
      forall i | 0 <= i < |records| :: Settled(records[i])
    }

    predicate AnyMarked()
      reads this
    {
      exists i | 0 <= i < |records| :: records[i].marked
    }

    /** Every index that is not pending is settled. */
    ghost predicate RestSettled(pending: seq<nat>)
      reads this
    {
      forall i | 0 <= i < |records| :: i in pending || Settled(records[i])
    }

    /** One pass over the pending records; those still draining stay pending. */
    method ResumePass(pending: seq<nat>, timeout: nat) returns (r: Result<seq<nat>, Error>)
      requires Valid() && RestSettled(pending) && timeout > 0
      requires forall k | k in pending :: k < |records|
      requires OnDisk(initial, log) == records
      modifies this
      ensures Valid() && clock >= old(clock) && |records| == |old(records)|
      ensures r.Success? ==>
        && RestSettled(r.value) && |r.value| <= |pending|
        && (forall k | k in r.value :: k in pending)
        && (r.value != [] ==> clock >= old(clock) + timeout)
        && OnDisk(initial, log) == records
    {
      var still: seq<nat> := [];
      for n := 0 to |pending|
        invariant Valid() && clock >= old(clock) && |records| == |old(records)|
        invariant |still| <= n && (still != [] ==> clock >= old(clock) + timeout)
        invariant forall k | k in still :: k in pending
        invariant RestSettled(still + pending[n..])
        invariant OnDisk(initial, log) == records
      {
        ghost var rest := pending[n + 1..];
        assert pending[n..] == [pending[n]] + rest && pending[n] in pending;
        var done :- Resume(pending[n], timeout);
        if !done {
          still := still + [pending[n]];
        }
      }
      r := Success(still);
    }

    /** Pass over the pending records until none drains or the time is up. */
    method ResumeAll(pending: seq<nat>, budget: nat, timeout: nat) returns (r: Result<bool, Error>)
      requires Valid() && RestSettled(pending) && timeout > 0
      requires forall k | k in pending :: k < |records|
      requires OnDisk(initial, log) == records
      modifies this
      ensures Valid() && clock >= old(clock)
      ensures r == Success(true) ==> Recovered() && OnDisk(initial, log) == records
      ensures r == Success(false) ==> clock >= old(clock) + budget
    {
      var deadline := clock + budget;
      var left: seq<nat> := pending;
      while left != [] && clock < deadline
        invariant Valid() && clock >= old(clock) && RestSettled(left)
        invariant forall k | k in left :: k < |records|
        invariant OnDisk(initial, log) == records
        decreases deadline - clock, |left|
      {
        left :- ResumePass(left, timeout);
      }
      r := Success(left == []);
    }

    /** All indices, last first. */
    function Backwards(n: nat): (r: seq<nat>)
      ensures forall k: nat :: k in r <==> k < n
    {
      if n == 0 then [] else [n - 1] + Backwards(n - 1)
    }

    /**
     The recovery guard: wait for the operator to recover, then recover what the journal
     marks. True means that every marked target was resumed, in memory and on disk.
     */
    method Guard(armed: nat, budget: nat) returns (r: Result<bool, Error>)
      requires Valid()
      modifies this
      ensures Valid()
      ensures r == Success(true) ==> Recovered() && OnDisk(initial, log) == records
      // It ends early only when something was marked and all of that has been resumed.
      ensures r == Success(true) && clock < old(clock) + armed ==>
        exists i :: 0 <= i < |records| && records[i].marked && records[i].resumed
      ensures r == Success(false) ==> clock >= old(clock) + armed + budget
    {
      var armDeadline := clock + armed;
      while clock < armDeadline
        invariant Valid() && clock >= old(clock)
        decreases armDeadline - clock
      {
        Load();
        if AnyMarked() && Recovered() {
          return Success(true);
        }
        Sleep(500);
      }
      Load();
      r := ResumeAll(Backwards(|records|), budget, 500);
    }

    /** The operator's own recovery. */
    method ResumeAction() returns (r: Result<bool, Error>)
      requires Valid()
      modifies this
      ensures Valid()
      ensures r == Success(true) ==> Recovered() && OnDisk(initial, log) == records
      ensures r == Success(false) ==> clock >= old(clock) + 120_000
    {
      Load();
      r := ResumeAll(Backwards(|records|), 120_000, 1000);
    }

    // Pausing.

    /** A graceful exit: code zero, or an API's 143 with its shutdown found in the log. */
    static ghost predicate Graceful(seen: seq<Event>, target: Record, at: nat) {
      && at < |seen| && SeenStopped(seen[at], target)
      && (seen[at].state.exitCode == 0
          || (target.role.Api? && seen[at].state.exitCode == 143 && at + 1 < |seen| && seen[at + 1] == ReadLogs(true)))
    }

    /** Every inspection from a position on shows the target stopped. */
    static ghost predicate StaysStopped(seen: seq<Event>, target: Record, at: nat) {
      forall k | at <= k < |seen| && seen[k].Saw? :: SeenStopped(seen[k], target)
    }

    /** TERM went to the target, it was seen after that, and an API's child got TERM exactly if it still ran. */
    static ghost predicate Delivered(seen: seq<Event>, from: nat, target: Record) {
      var n := |seen|;
      && n >= from + 4
      && if target.role.Api? && seen[n - 1].ChildTermed? then
           n >= from + 5 && seen[n - 1] == ChildTermed(target) && SeenRunning(seen[n - 2], target)
           && seen[n - 3] == Termed(target)
         else
           seen[n - 2] == Termed(target) && SeenInGeneration(seen[n - 1], target)
           && (target.role.Api? ==> !SeenRunning(seen[n - 1], target))
    }

    /** See the target in its generation, and mark it on disk. */
    method Mark(i: nat) returns (error: Option<Error>)
      requires Valid() && i < |records|
      modifies this
      ensures Valid() && OnlyRecord(i) && clock >= old(clock) && old(log) <= log
      ensures error.None? ==>
        && records[i] == old(records[i]).(marked := true) && OnDisk(initial, log) == records
        && |log| == |old(log)| + 2 && SeenInGeneration(log[|log| - 2], records[i])
        && JustJournalled(log[|log| - 1], records[i])
      ensures error.Some? ==>
        Explained(log, |old(log)|, error.value, records[i]) && (FoundBy(error.value) || error.value.SaveFailed?)
    {
      var before := Check(records[i]);
      if before.Failure? {
        return Some(before.error);
      }
      records := records[i := records[i].(marked := true)];
      var saved := Save();
      error := if saved then None else Some(SaveFailed);
    }

    /** Mark on disk, deliver TERM, and see the target once more. */
    method Deliver(i: nat) returns (error: Option<Error>)
      requires Valid() && i < |records|
      modifies this
      ensures Valid() && OnlyRecord(i) && clock >= old(clock) && old(log) <= log
      ensures error.None? ==>
        && records[i] == old(records[i]).(marked := true) && OnDisk(initial, log) == records
        && Delivered(log, |old(log)|, records[i])
      ensures error.Some? ==>
        Explained(log, |old(log)|, error.value, records[i]) && (FoundBy(error.value) || error.value.SaveFailed?)
    {
      error := Mark(i);
      if error.None? {
        error := Terminate(i);
      }
    }

    /** Deliver TERM to the marked target, see it once more, and pass TERM on to a running API's child. */
    method Terminate(i: nat) returns (error: Option<Error>)
      requires Valid() && i < |records| && |log| >= 2
      requires JustJournalled(log[|log| - 1], records[i]) && SeenInGeneration(log[|log| - 2], records[i])
      modifies this`clock, this`log
      ensures Valid() && clock >= old(clock) && old(log) <= log
      ensures OnDisk(initial, log) == OnDisk(initial, old(log))
      ensures error.None? ==> Delivered(log, |old(log)| - 2, records[i])
      ensures error.Some? ==> Explained(log, |old(log)|, error.value, records[i]) && FoundBy(error.value)
    {
      var termed := Call(Termed(records[i]));
      if !termed {
        return Some(DriverFailed);
      }
      var state := Check(records[i]);
      if state.Failure? {
        return Some(state.error);
      }
      if records[i].role.Api? && state.value.running {
        var childTermed := Call(ChildTermed(records[i]));
        if !childTermed {
          return Some(DriverFailed);
        }
      }
      error := None;
    }

    /** Whether the exit that was just seen is accepted. */
    method AcceptExit(i: nat, state: Inspection) returns (error: Option<Error>)
      requires Valid() && i < |records| && log != [] && log[|log| - 1] == Saw(state)
      requires SeenStopped(Saw(state), records[i])
      modifies this`clock, this`log
      ensures Valid() && clock >= old(clock) && OnDisk(initial, log) == OnDisk(initial, old(log))
      ensures old(log) <= log
      ensures error.None? ==> Graceful(log, records[i], |old(log)| - 1)
      ensures error != Some(GraceExhausted)
      ensures error.Some? ==> Explained(log, |old(log)| - 1, error.value, records[i])
      ensures error.None? ==>
        forall k | |old(log)| <= k < |log| && log[k].Saw? :: InGeneration(log[k].state, records[i])
    {
      if state.exitCode == 0 {
        return None;
      }
      if !records[i].role.Api? || state.exitCode != 143 {
        return Some(NonzeroGracefulExit);
      }
      var complete: bool := *;
      var read := Call(ReadLogs(complete));
      if !read {
        return Some(DriverFailed);
      }
      if !complete {
        return Some(NonzeroGracefulExit);
      }
      var again := Check(records[i]);
      error := if again.Failure? then Some(again.error) else None;
    }

    /** Poll until the container has stopped gracefully; `at` is where the log saw it. */
    method AwaitStop(i: nat, timeout: nat) returns (error: Option<Error>, ghost at: nat)
      requires Valid() && i < |records|
      modifies this
      ensures Valid() && OnlyRecord(i) && clock >= old(clock) && old(log) <= log
      ensures error == Some(GraceExhausted) ==> clock >= old(clock) + timeout
      ensures error.Some? ==> Explained(log, |old(log)|, error.value, records[i])
      ensures error.None? ==>
        && at < |log| && Graceful(log, records[i], at)
        && records[i] == old(records[i]).(stopped := true) && OnDisk(initial, log) == records
    {
      at := 0;
      var deadline := clock + timeout;
      while true
        invariant Valid() && clock >= old(clock) && records == old(records) && old(log) <= log
        decreases deadline - clock
      {
        var state := Check(records[i]);
        if state.Failure? {
          return Some(state.error), at;
        }
        if !state.value.running {
          at := |log| - 1;
          error := AcceptExit(i, state.value);
          if error.Some? {
            return;
          }
          ghost var seen, target := log, records[i];
          records := records[i := records[i].(stopped := true)];
          var saved := Save();
          StillGraceful(seen, log, target, records[i], at);
          return if saved then None else Some(SaveFailed), at;
        }
        if clock >= deadline {
          return Some(GraceExhausted), at;
        }
        Sleep(250);
      }
    }

    /** Watch the stopped container for a while. */
    method Settle(i: nat, settle: nat) returns (error: Option<Error>)
      requires Valid() && i < |records|
      modifies this`clock, this`log
      ensures Valid() && clock >= old(clock) && OnDisk(initial, log) == OnDisk(initial, old(log))
      ensures old(log) <= log
      ensures error.None? ==>
        && StaysStopped(log, records[i], |old(log)|) && |log| > |old(log)|
        && log[|log| - 1] == Watched(records[i], old(clock), clock) && clock >= old(clock) + settle
      ensures error.Some? ==>
        Explained(log, |old(log)|, error.value, records[i]) && (FoundBy(error.value) || error.value.UnexpectedStart?)
    {
      ghost var since := clock;
      var end := clock + settle;
      while clock < end
        invariant Valid() && clock >= old(clock) && OnDisk(initial, log) == OnDisk(initial, old(log))
        invariant old(log) <= log && StaysStopped(log, records[i], |old(log)|)
        decreases end - clock
      {
        var state := Check(records[i]);
        if state.Failure? {
          return Some(state.error);
        }
        if state.value.running {
          return Some(UnexpectedStart);
        }
        Sleep(250);
      }
      DisciplinedAfter(initial, log, Watched(records[i], since, clock));
      log := log + [Watched(records[i], since, clock)];
      error := None;
    }

    /**
     The target was seen to exit gracefully, and in every inspection of the settling that
     followed to stay so, which took the given time.
     */
    static ghost predicate Quiesced(seen: seq<Event>, target: Record, settle: nat) {
      exists at, watched, end :: QuiescedBy(seen, target, settle, at, watched, end)
    }

    static ghost predicate QuiescedBy(
      seen: seq<Event>, target: Record, settle: nat, at: nat, watched: nat, end: nat)
    {
      && at < watched < end <= |seen|
      && Graceful(seen[..watched], target, at) && StaysStopped(seen[..end], target, watched)
      && seen[end - 1].Watched? && seen[end - 1].target == target
      && seen[end - 1].until >= seen[end - 1].since + settle
    }

    /**
     Pause one target. Success means: marked and stopped on disk, seen to exit gracefully in
     its recorded generation, and seen stopped ever since for the settling time.
     */
    method Pause(i: nat, timeout: nat, settle: nat) returns (error: Option<Error>, ghost at: nat, ghost watched: nat)
      requires Valid() && i < |records|
      modifies this
      ensures Valid() && OnlyRecord(i) && old(log) <= log
      ensures error.None? ==>
        && records[i] == old(records[i]).(marked := true, stopped := true) && OnDisk(initial, log) == records
        && QuiescedBy(log, records[i], settle, at, watched, |log|)
      ensures error.Some? ==> Explained(log, |old(log)|, error.value, records[i])
      ensures clock >= old(clock) && (error == Some(GraceExhausted) ==> clock >= old(clock) + timeout)
    {
      at, watched := 0, 0;
      error := Deliver(i);
      if error.Some? {
        return;
      }
      error, at := AwaitStop(i, timeout);
      if error.Some? {
        return;
      }
      watched := |log|;
      ghost var seen := log;
      error := Settle(i, settle);
      if error.None? {
        assert log[..watched] == seen && log[..|log|] == log;
      }
    }

    /** The target is settled, or was seen since a position to be still draining. */
    static ghost predicate Tried(seen: seq<Event>, from: nat, target: Record) {
      Settled(target) || exists k: nat | from <= k < |seen| :: SeenRunning(seen[k], target)
    }

    /** Every target but the first few was tried, and an error explains why those were not. */
    ghost predicate TriedFrom(from: nat, reached: nat, error: Option<Error>)
      reads this
    {
      && reached <= |records| && from <= |log|
      && (forall j | reached <= j < |records| :: Tried(log, from, records[j]))
      && (error.None? ==> reached == 0)
      && (error.Some? ==> reached > 0 && Explained(log, from, error.value, records[reached - 1]))
    }

    /** Try to resume every target, last first, until one try raises. */
    method TryResumes(timeout: nat) returns (error: Option<Error>, ghost reached: nat)
      requires Valid()
      modifies this
      ensures Valid() && |records| == |old(records)| && old(log) <= log && clock >= old(clock)
      ensures forall j | 0 <= j < |records| :: SameTarget(old(records[j]), records[j])
      ensures TriedFrom(|old(log)|, reached, error)
    {
      for i := |records| downto 0
        invariant Valid() && |records| == |old(records)| && old(log) <= log && clock >= old(clock)
        invariant forall j | 0 <= j < |records| :: SameTarget(old(records[j]), records[j])
        invariant forall j | i <= j < |records| :: Tried(log, |old(log)|, records[j])
      {
        ghost var seen, before := log, records;
        var resumed := Resume(i, timeout);
        forall j | i < j < |records| ensures Tried(log, |old(log)|, records[j]) {
          StillTried(seen, log, |old(log)|, before[j]);
        }
        if resumed.Failure? {
          return Some(resumed.error), i + 1;
        }
      }
      return None, 0;
    }

    /** What a completed pause leaves of record i, in memory and in the log. */
    static ghost predicate Paused(records: seq<Record>, seen: seq<Event>, i: nat) {
      i < |records| && records[i].marked && records[i].stopped && Quiesced(seen, records[i], 3000)
    }

    /**
     The operator's pause: all targets in order; on any failure, one bounded recovery.
     Success means that the journal on disk has every target marked and stopped, and that
     each was seen to exit gracefully and to stay stopped while it settled. A failure is
     explained by what had happened to some target, and all targets were tried from the last
     one on, up to one whose try raised; its error is then the one that is reported.
     */
    method PauseAction() returns (
      error: Option<Error>, ghost cause: Option<Error>, ghost failed: nat, ghost since: nat,
      ghost recovery: Option<Error>, ghost reached: nat)
      requires Valid()
      modifies this
      ensures Valid()
      ensures error.None? ==>
        OnDisk(initial, log) == records && forall i | 0 <= i < |records| :: Paused(records, log, i)
      ensures error.Some? ==>
        && cause.Some? && error == (if recovery.Some? then recovery else cause)
        && failed < |records| && 0 < since <= |log| && Explains(log[since - 1], cause.value, records[failed])
        && TriedFrom(since, reached, recovery)
    {
      Load();
      ghost var count := |records|;
      error, cause, failed, since, recovery, reached := None, None, 0, 0, None, 0;
      for i := 0 to |records|
        invariant Valid() && |records| == count && OnDisk(initial, log) == records && error.None?
        invariant forall j | 0 <= j < i :: Paused(records, log, j)
      {
        ghost var at, watched;
        ghost var seen, before := log, records;
        error, at, watched := Pause(i, 90_000, 3000);
        if error.Some? {
          cause, failed, since := error, i, |log|;
          ghost var target := records[i];
          var raised;
          raised, reached := TryResumes(10_000);
          SameExplanation(log[since - 1], cause.value, target, records[i]);
          recovery := raised;
          error := if raised.Some? then raised else error;
          return;
        }
        forall j | 0 <= j <= i ensures Paused(records, log, j) {
          if j < i {
            assert Paused(before, seen, j);
            StillQuiesced(seen, log, before[j], 3000);
          } else {
            assert QuiescedBy(log, records[i], 3000, at, watched, |log|);
          }
        }
      }
    }
  }

  lemma SameExplanation(e: Event, error: Error, r: Record, s: Record)
    requires SameTarget(r, s)
    ensures Explains(e, error, r) <==> Explains(e, error, s)
  {
  }

  lemma StillTried(seen: seq<Event>, log: seq<Event>, from: nat, target: Record)
    requires Operator.Tried(seen, from, target) && seen <= log
    ensures Operator.Tried(log, from, target)
  {
    if !Settled(target) {
      var k: nat :| from <= k < |seen| && SeenRunning(seen[k], target);
      assert SeenRunning(log[k], target);
    }
  }

  lemma StillQuiesced(seen: seq<Event>, log: seq<Event>, target: Record, settle: nat)
    requires Operator.Quiesced(seen, target, settle) && seen <= log
    ensures Operator.Quiesced(log, target, settle)
  {
    var at: nat, watched: nat, end: nat :| Operator.QuiescedBy(seen, target, settle, at, watched, end);
    assert log[..watched] == seen[..watched] && log[..end] == seen[..end];
    assert Operator.QuiescedBy(log, target, settle, at, watched, end);
  }

  lemma StillGraceful(seen: seq<Event>, log: seq<Event>, target: Record, target': Record, at: nat)
    requires Operator.Graceful(seen, target, at) && seen <= log && target' == target.(stopped := true)
    ensures Operator.Graceful(log, target', at)
  {
  }
}
