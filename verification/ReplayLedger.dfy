/**
 The append-only, hash-chained ledger of the DLQ reconciliation, the gate that replay
 history closes, and the rollback of a run.
 */
module ReplayLedger {
  import opened Prelude

  datatype Class = AlreadyApplied | TerminalUpstream404 | UnknownAppendOutcome | ReplayCandidate

  datatype EventType = Classification | Approval | Action | Rollback

  datatype Reason =
    | ReplayReserved
    | ReplaySucceeded
    | ReplayReconciled
    | QuarantinedOnRollback
    | RollbackRequested
    | OtherReason(code: string)

  /** The part of an event its hash covers: everything but the ID and the timestamp. */
  datatype Content = Content(
    runId: string,
    sequence: int,
    eventType: EventType,
    actor: string,
    fingerprint: string,
    messageId: Option<string>,
    sellerRef: Option<string>,
    classification: Option<Class>,
    reason: Option<Reason>,
    evidence: seq<string>,
    predecessor: string,
    schemaVersion: nat)

  datatype Event = Event(content: Content, occurredAt: int, hash: string)

  type Hash = Content -> string

  /** What the chain needs of SHA-256: no two contents share a digest, and none is empty. */
  ghost predicate CollisionFree(h: Hash) {
    && (forall x :: h(x) != "")
    && (forall x, y :: h(x) == h(y) ==> x == y)
  }

  function BuildAppendEvent(h: Hash, content: Content, occurredAt: int): Event {
    Event(content, occurredAt, h(content))
  }

  datatype Error =
    | SequenceNotIncreasing
    | BrokenHashChain
    | FirstPredecessorNotEmpty
    | PersistFailed
    | NotConfirmed
    | QuarantineUnavailable

  /** What one durable write does; a raising write may still have reached the disk. */
  datatype Persist = Written | Lost | Unconfirmed

  /** Which durable writes go wrong, by how many writes came before them. */
  datatype Disk = Disk(lost: set<nat>, unconfirmed: set<nat>) {
    function Outcome(write: nat): Persist {
      if write in lost then Lost else if write in unconfirmed then Unconfirmed else Written
    }
  }

  /** Why the ledger turns an event away before writing anything. */
  function Refusal(store: seq<Event>, e: Event): Option<Error> {
    if store == [] then
      if e.content.predecessor != "" then Some(FirstPredecessorNotEmpty) else None
    else
      var previous := store[|store| - 1];
      if e.content.sequence <= previous.content.sequence then Some(SequenceNotIncreasing)
      else if e.content.predecessor != previous.hash then Some(BrokenHashChain)
      else None
  }

  /** What is on disk and what is in memory after one append, and whether it raised. */
  function Appended(durable: seq<Event>, store: seq<Event>, e: Event, p: Persist)
    : (seq<Event>, seq<Event>, Option<Error>)
  {
    if Refusal(store, e).Some? then (durable, store, Refusal(store, e))
    else match p
      case Written => (durable + [e], store + [e], None)
      case Lost => (durable, store, Some(PersistFailed))
      case Unconfirmed => (durable + [e], store, Some(PersistFailed))
  }

  function LastHash(s: seq<Event>): string {
    if s == [] then "" else s[|s| - 1].hash
  }

  predicate RisesAbove(s: seq<Event>, sequence: int) {
    s == [] || sequence > s[|s| - 1].content.sequence
  }

  /** The event carries its own hash, names the hash before it and has a higher number. */
  ghost predicate Linked(h: Hash, s: seq<Event>, i: nat)
    requires i < |s|
  {
    && s[i].hash == h(s[i].content)
    && s[i].content.predecessor == LastHash(s[..i])
    && RisesAbove(s[..i], s[i].content.sequence)
  }

  ghost predicate ValidChain(h: Hash, s: seq<Event>) {
    forall i | 0 <= i < |s| :: Linked(h, s, i)
  }

  /** Accepted events built by the builder keep the chain unbroken and strictly rising. */
  lemma AppendKeepsChain(h: Hash, s: seq<Event>, content: Content, occurredAt: int)
    requires ValidChain(h, s)
    requires Refusal(s, BuildAppendEvent(h, content, occurredAt)).None?
    ensures ValidChain(h, s + [BuildAppendEvent(h, content, occurredAt)])
  {
    var more := s + [BuildAppendEvent(h, content, occurredAt)];
    forall i | 0 <= i < |more| ensures Linked(h, more, i) {
      if i < |s| {
        assert Linked(h, s, i);
        assert more[..i] == s[..i];
      } else {
        assert more[..i] == s;
      }
    }
  }

  lemma {:induction false} ChainRises(h: Hash, s: seq<Event>, i: nat, j: nat)
    requires ValidChain(h, s) && i < j < |s|
    ensures s[i].content.sequence < s[j].content.sequence
    decreases j
  {
    assert Linked(h, s, j);
    if i < j - 1 {
      ChainRises(h, s, i, j - 1);
    }
  }

  /**
   The last hash commits to the whole history: two unbroken chains that end in the same
   hash have the same length and the same content at every position.
   */
  lemma {:induction false} SameHeadSameHistory(h: Hash, a: seq<Event>, b: seq<Event>)
    requires CollisionFree(h) && ValidChain(h, a) && ValidChain(h, b)
    requires LastHash(a) == LastHash(b)
    ensures |a| == |b|
    ensures forall i | 0 <= i < |a| :: a[i].content == b[i].content && a[i].hash == b[i].hash
  {
    if a != [] { assert Linked(h, a, |a| - 1); }
    if b != [] { assert Linked(h, b, |b| - 1); }
    if a != [] && b != [] {
      var m, n := |a| - 1, |b| - 1;
      ChainPrefix(h, a, m);
      ChainPrefix(h, b, n);
      SameHeadSameHistory(h, a[..m], b[..n]);
      forall i | 0 <= i < |a| ensures a[i].content == b[i].content && a[i].hash == b[i].hash {
        if i < m { assert a[i] == a[..m][i] && b[i] == b[..n][i]; }
      }
    }
  }

  lemma ChainPrefix(h: Hash, s: seq<Event>, k: nat)
    requires ValidChain(h, s) && k <= |s|
    ensures ValidChain(h, s[..k])
  {
    forall i | 0 <= i < k ensures Linked(h, s[..k], i) {
      assert Linked(h, s, i);
      assert s[..k][..i] == s[..i];
    }
  }

  class AppendOnlyLedger {
    const hash: Hash
    const disk: Disk
    var writes: nat
    var durable: seq<Event>
    var store: seq<Event>

    /** A new process loads what the disk holds. */
    constructor (hash: Hash, disk: Disk, durable: seq<Event>)
      ensures this.hash == hash && this.disk == disk && writes == 0
      ensures this.durable == durable && store == durable
    {
      this.hash := hash;
      this.disk := disk;
      this.writes := 0;
      this.durable := durable;
      this.store := durable;
    }

    method Append(event: Event) returns (error: Option<Error>)
      modifies this
      ensures (durable, store, error) == Appended(old(durable), old(store), event, disk.Outcome(old(writes)))
      ensures writes == old(writes) + if Refusal(old(store), event).None? then 1 else 0
    {
      if store != [] {
        var previous := store[|store| - 1];
        if event.content.sequence <= previous.content.sequence {
          return Some(SequenceNotIncreasing);
        }
        if event.content.predecessor != previous.hash {
          return Some(BrokenHashChain);
        }
      } else if event.content.predecessor != "" {
        return Some(FirstPredecessorNotEmpty);
      }
      writes := writes + 1;
      match disk.Outcome(writes - 1) {
        case Written => durable := durable + [event];
        case Lost => return Some(PersistFailed);
        case Unconfirmed =>
          durable := durable + [event];
          return Some(PersistFailed);
      }
      store := store + [event];
      error := None;
    }
  }

  // ---------------------------------------------------------------------------
  // The replay gate
  // ---------------------------------------------------------------------------

  predicate ReplayEvent(e: Event, fingerprint: Option<string>) {
    && (fingerprint.None? || e.content.fingerprint == fingerprint.value)
    && e.content.reason in {Some(ReplayReserved), Some(ReplaySucceeded), Some(ReplayReconciled)}
  }

  predicate Reconciles(e: Event, fingerprint: string) {
    e.content.fingerprint == fingerprint && e.content.reason == Some(ReplayReconciled)
  }

  /** The last replay event for the fingerprint is a reservation or a success. */
  predicate Blocked(events: seq<Event>, fingerprint: Option<string>) {
    exists i | 0 <= i < |events| ::
      && ReplayEvent(events[i], fingerprint)
      && events[i].content.reason != Some(ReplayReconciled)
      && forall j | i < j < |events| :: !ReplayEvent(events[j], fingerprint)
  }

  lemma BlockedAfter(events: seq<Event>, e: Event, fingerprint: Option<string>)
    ensures Blocked(events + [e], fingerprint)
       <==> if ReplayEvent(e, fingerprint) then e.content.reason != Some(ReplayReconciled)
            else Blocked(events, fingerprint)
  {
    var more := events + [e];
    if ReplayEvent(e, fingerprint) {
      assert more[|events|] == e;
    } else if Blocked(events, fingerprint) {
      var i :| 0 <= i < |events| && ReplayEvent(events[i], fingerprint)
        && events[i].content.reason != Some(ReplayReconciled)
        && forall j | i < j < |events| :: !ReplayEvent(events[j], fingerprint);
      assert more[i] == events[i];
    } else {
      assert forall i | 0 <= i < |events| :: more[i] == events[i];
    }
  }

  method HasBlockingReplayLedgerEvent(events: seq<Event>, fingerprint: Option<string>) returns (blocked: bool)
    ensures blocked <==> Blocked(events, fingerprint)
  {
    blocked := false;
    for i := 0 to |events|
      invariant blocked <==> Blocked(events[..i], fingerprint)
    {
      var event := events[i];
      assert events[..i + 1] == events[..i] + [event];
      BlockedAfter(events[..i], event, fingerprint);
      if fingerprint.Some? && event.content.fingerprint != fingerprint.value {
        continue;
      }
      if event.content.reason in {Some(ReplayReserved), Some(ReplaySucceeded)} {
        blocked := true;
      } else if event.content.reason == Some(ReplayReconciled) {
        blocked := false;
      }
    }
    assert events[..|events|] == events;
  }

  /** Some reservation or success of the message has no reconciliation of it after it. */
  ghost predicate Unreconciled(events: seq<Event>, f: string) {
    exists i | 0 <= i < |events| :: UnreconciledAt(events, f, i)
  }

  ghost predicate UnreconciledAt(events: seq<Event>, f: string, i: nat)
    requires i < |events|
  {
    && events[i].content.fingerprint == f
    && (events[i].content.reason == Some(ReplayReserved) || events[i].content.reason == Some(ReplaySucceeded))
    && forall j | i < j < |events| :: !Reconciles(events[j], f)
  }

  lemma UnreconciledAfter(events: seq<Event>, e: Event, f: string)
    ensures Unreconciled(events + [e], f) <==>
      if ReplayEvent(e, Some(f)) then e.content.reason != Some(ReplayReconciled) else Unreconciled(events, f)
  {
    var more, n := events + [e], |events|;
    assert forall i | 0 <= i < n :: more[i] == events[i];
    forall i | 0 <= i < n
      ensures UnreconciledAt(more, f, i) <==> UnreconciledAt(events, f, i) && !Reconciles(e, f)
    {
      assert more[n] == e;
      if UnreconciledAt(more, f, i) {
        forall j | i < j < n ensures !Reconciles(events[j], f) {
          assert !Reconciles(more[j], f);
        }
      }
    }
    if Unreconciled(events, f) && !Reconciles(e, f) {
      var i :| 0 <= i < n && UnreconciledAt(events, f, i);
      assert UnreconciledAt(more, f, i);
    }
    assert more[n] == e;
    assert UnreconciledAt(more, f, n) <==>
      ReplayEvent(e, Some(f)) && e.content.reason != Some(ReplayReconciled);
  }

  /** History blocks a message exactly while something of it is unreconciled. */
  lemma {:induction false} BlockedIffUnreconciled(events: seq<Event>, f: string)
    ensures Blocked(events, Some(f)) <==> Unreconciled(events, f)
  {
    if events != [] {
      var n := |events| - 1;
      assert events == events[..n] + [events[n]];
      BlockedIffUnreconciled(events[..n], f);
      BlockedAfter(events[..n], events[n], Some(f));
      UnreconciledAfter(events[..n], events[n], f);
    }
  }

  /** Whether a message may go on to publish. */
  predicate GateOpens(class_: Class, scopedKey: bool, priorSuccess: bool, events: seq<Event>,
    fingerprint: Option<string>)
  {
    class_.ReplayCandidate? && !scopedKey && !priorSuccess && !Blocked(events, fingerprint)
  }

  /** The last replay event of any message is a reconciliation. */
  ghost predicate LastReplayReconciles(events: seq<Event>) {
    exists i | 0 <= i < |events| ::
      && ReplayEvent(events[i], None)
      && events[i].content.reason == Some(ReplayReconciled)
      && forall j | i < j < |events| :: !ReplayEvent(events[j], None)
  }

  lemma LastReplayAfter(events: seq<Event>, e: Event)
    ensures LastReplayReconciles(events + [e])
       <==> if ReplayEvent(e, None) then e.content.reason == Some(ReplayReconciled) else LastReplayReconciles(events)
  {
    var more := events + [e];
    if ReplayEvent(e, None) {
      assert more[|events|] == e;
    } else if LastReplayReconciles(events) {
      var i :| 0 <= i < |events| && ReplayEvent(events[i], None)
        && events[i].content.reason == Some(ReplayReconciled)
        && forall j | i < j < |events| :: !ReplayEvent(events[j], None);
      assert more[i] == events[i];
    } else {
      assert forall i | 0 <= i < |events| :: more[i] == events[i];
    }
  }

  /** Once any replay event is there, the question without a fingerprint looks at the last one alone. */
  lemma {:induction false} BlockedWithoutFingerprintIff(events: seq<Event>)
    ensures Blocked(events, None)
       <==> (exists i | 0 <= i < |events| :: ReplayEvent(events[i], None)) && !LastReplayReconciles(events)
  {
    if events != [] {
      var front, e := events[..|events| - 1], events[|events| - 1];
      assert events == front + [e];
      BlockedWithoutFingerprintIff(front);
      BlockedAfter(front, e, None);
      LastReplayAfter(front, e);
    }
  }

  /**
   Asking without a fingerprint overlooks a message that is blocked exactly when the last
   replay event of any message is a reconciliation.
   */
  lemma GateOverlooksIff(events: seq<Event>, f: string)
    requires Blocked(events, Some(f))
    ensures !Blocked(events, None) <==> LastReplayReconciles(events)
  {
    BlockedWithoutFingerprintIff(events);
    var i :| 0 <= i < |events| && ReplayEvent(events[i], Some(f));
    assert ReplayEvent(events[i], None);
  }

  /**
   So the question without a fingerprint protects every message exactly when none is
   blocked or the last replay event is not a reconciliation.
   */
  lemma GateProtectsAllIff(events: seq<Event>)
    ensures (forall f :: Blocked(events, Some(f)) ==> Blocked(events, None))
       <==> (forall f :: !Blocked(events, Some(f))) || !LastReplayReconciles(events)
  {
    forall f | Blocked(events, Some(f)) ensures !Blocked(events, None) <==> LastReplayReconciles(events) {
      GateOverlooksIff(events, f);
    }
  }

  /** A ledger that is overlooked: one message reserved, then another reconciled. */
  lemma GateWithoutFingerprintOverlooks(h: Hash, reserved: Content, reconciled: Content, at: int)
    requires reserved.reason == Some(ReplayReserved) && reconciled.reason == Some(ReplayReconciled)
    requires reserved.fingerprint != reconciled.fingerprint
    ensures var events := [BuildAppendEvent(h, reserved, at), BuildAppendEvent(h, reconciled, at)];
      Blocked(events, Some(reserved.fingerprint)) && !Blocked(events, None)
  {
    var first, second := BuildAppendEvent(h, reserved, at), BuildAppendEvent(h, reconciled, at);
    BlockedAfter([], first, Some(reserved.fingerprint));
    BlockedAfter([first], second, Some(reserved.fingerprint));
    BlockedAfter([first], second, None);
    assert [] + [first] == [first];
    assert [first] + [second] == [first, second];
  }

  // ---------------------------------------------------------------------------
  // Rollback
  // ---------------------------------------------------------------------------

  /** The classes whose closed action list holds a quarantine action. */
  predicate Quarantines(class_: Class) {
    class_.TerminalUpstream404? || class_.UnknownAppendOutcome?
  }

  function RollbackContent(runId: string, actor: string, sequence: int, class_: Option<Class>,
    predecessor: string): Content
  {
    if class_.Some? then
      Content(runId, sequence, Action, actor, "", None, None, class_, Some(QuarantinedOnRollback), [], predecessor, 1)
    else
      Content(runId, sequence, Rollback, actor, "", None, None, None, Some(RollbackRequested), [], predecessor, 1)
  }

  /** What a rollback writes of an item it quarantined, and what it writes at its end. */
  lemma RollbackContents(runId: string, actor: string, sequence: int, class_: Option<Class>, predecessor: string)
    ensures var c := RollbackContent(runId, actor, sequence, class_, predecessor);
      && c.runId == runId && c.actor == actor && c.sequence == sequence && c.predecessor == predecessor
      && c.fingerprint == "" && c.messageId == None && c.sellerRef == None && c.evidence == []
      && c.schemaVersion == 1 && c.classification == class_
      && (class_.Some? ==> c.eventType == Action && c.reason == Some(QuarantinedOnRollback))
      && (class_.None? ==> c.eventType == Rollback && c.reason == Some(RollbackRequested))
  {
  }

  /** The items a rollback hands to the adapter, in order. */
  function Quarantined(items: seq<Class>): seq<Class> {
    if items == [] then []
    else
      var n := |items|;
      Quarantined(items[..n - 1]) + if Quarantines(items[n - 1]) then [items[n - 1]] else []
  }

  ghost predicate QuarantineAt(added: seq<Event>, classes: seq<Class>, runId: string, actor: string, base: int, i: nat)
    requires i < |added| == |classes|
  {
    added[i].content == RollbackContent(runId, actor, base + 1 + i, Some(classes[i]), added[i].content.predecessor)
  }

  /** One quarantine event per quarantined item, in order, numbered from base + 1. */
  ghost predicate QuarantineEvents(added: seq<Event>, classes: seq<Class>, runId: string, actor: string, base: int) {
    && |added| == |classes|
    && forall i | 0 <= i < |added| :: QuarantineAt(added, classes, runId, actor, base, i)
  }

  /** The numbering the caller chose continues the ledger. */
  predicate Continues(store: seq<Event>, sequenceBase: int) {
    store == [] || sequenceBase >= store[|store| - 1].content.sequence
  }

  lemma MoreQuarantineEvents(
    added: seq<Event>, classes: seq<Class>, e: Event, class_: Class, runId: string, actor: string, base: int)
    requires QuarantineEvents(added, classes, runId, actor, base)
    requires e.content == RollbackContent(runId, actor, base + 1 + |added|, Some(class_), e.content.predecessor)
    ensures QuarantineEvents(added + [e], classes + [class_], runId, actor, base)
  {
    forall i | 0 <= i < |added| + 1 ensures QuarantineAt(added + [e], classes + [class_], runId, actor, base, i) {
      if i < |added| { assert QuarantineAt(added, classes, runId, actor, base, i); }
    }
  }

  /** The next event of a rollback, chained to whatever the ledger ends in. */
  method AppendNext(
    ledger: AppendOnlyLedger, runId: string, actor: string, sequence: int, class_: Option<Class>, occurredAt: int)
    returns (r: Result<Event, Error>)
    requires ValidChain(ledger.hash, ledger.store)
    modifies ledger
    ensures ValidChain(ledger.hash, ledger.store)
    ensures r.Success? <==>
        && Continues(old(ledger.store), sequence - 1)
        && ledger.disk.Outcome(old(ledger.writes)).Written?
    ensures r.Success? ==>
        && r.value.content == RollbackContent(runId, actor, sequence, class_, LastHash(old(ledger.store)))
        && ledger.store == old(ledger.store) + [r.value]
        && ledger.durable == old(ledger.durable) + [r.value]
        && ledger.writes == old(ledger.writes) + 1
    ensures r.Failure? ==> ledger.store == old(ledger.store)
    ensures r.Success? ==> Continues(ledger.store, sequence)
  {
    var event := BuildAppendEvent(ledger.hash,
      RollbackContent(runId, actor, sequence, class_, LastHash(ledger.store)), occurredAt);
    ghost var before := ledger.store;
    var error := ledger.Append(event);
    if error.Some? {
      return Failure(error.value);
    }
    AppendKeepsChain(ledger.hash, before, event.content, occurredAt);
    r := Success(event);
  }

  /** No adapter call for one of the first k items raises. */
  ghost predicate AdapterHolds(items: seq<Class>, k: nat, fails: set<nat>)
    requires k <= |items|
  {
    forall i | 0 <= i < k && Quarantines(items[i]) :: i !in fails
  }

  /** The next n writes are all confirmed. */
  ghost predicate WritesHold(disk: Disk, from: nat, n: nat) {
    forall w | from <= w < from + n :: disk.Outcome(w).Written?
  }

  /** Where a rollback stands before item i: the ledger grew by the quarantine events so far. */
  ghost predicate Progress(
    ledger: AppendOnlyLedger, store: seq<Event>, durable: seq<Event>, writes: nat, added: seq<Event>,
    items: seq<Class>, i: nat, fails: set<nat>, runId: string, actor: string, base: int)
    requires i <= |items|
    reads ledger
  {
    && ValidChain(ledger.hash, ledger.store)
    && ledger.store == store + added
    && ledger.durable == durable + added
    && ledger.writes == writes + |added|
    && QuarantineEvents(added, Quarantined(items[..i]), runId, actor, base)
    && AdapterHolds(items, i, fails)
    && WritesHold(ledger.disk, writes, |added|)
    && (added != [] ==> Continues(store, base))
    && (Continues(ledger.store, base + |added|) <==> Continues(store, base))
  }

  lemma OneMoreQuarantined(
    disk: Disk, writes: nat, added: seq<Event>, e: Event,
    items: seq<Class>, i: nat, fails: set<nat>, runId: string, actor: string, base: int)
    requires i < |items| && Quarantines(items[i]) && i !in fails
    requires QuarantineEvents(added, Quarantined(items[..i]), runId, actor, base)
    requires e.content == RollbackContent(runId, actor, base + |added| + 1, Some(items[i]), e.content.predecessor)
    requires AdapterHolds(items, i, fails)
    requires WritesHold(disk, writes, |added|) && disk.Outcome(writes + |added|).Written?
    ensures QuarantineEvents(added + [e], Quarantined(items[..i + 1]), runId, actor, base)
    ensures AdapterHolds(items, i + 1, fails) && WritesHold(disk, writes, |added| + 1)
  {
    QuarantinedSoFar(items, i);
    MoreQuarantineEvents(added, Quarantined(items[..i]), e, items[i], runId, actor, base);
  }

  /** One quarantined item: the adapter's call, then its event. */
  method QuarantineItem(
    ledger: AppendOnlyLedger, items: seq<Class>, i: nat, fails: set<nat>,
    runId: string, actor: string, occurredAt: int, sequence: int,
    ghost store: seq<Event>, ghost durable: seq<Event>, ghost writes: nat, ghost added: seq<Event>, ghost base: int)
    returns (r: Result<Event, Error>)
    requires i < |items| && Quarantines(items[i]) && sequence == base + |added|
    requires Progress(ledger, store, durable, writes, added, items, i, fails, runId, actor, base)
    modifies ledger
    ensures r.Success? ==>
      Progress(ledger, store, durable, writes, added + [r.value], items, i + 1, fails, runId, actor, base)
    ensures r.Failure? ==> ValidChain(ledger.hash, ledger.store) && ledger.store == store + added
    ensures r.Failure? ==> i in fails || !Continues(store, base) || !ledger.disk.Outcome(writes + |added|).Written?
  {
    if i in fails {
      return Failure(QuarantineUnavailable);
    }
    r := AppendNext(ledger, runId, actor, sequence + 1, Some(items[i]), occurredAt);
    if r.Success? {
      OneMoreQuarantined(ledger.disk, writes, added, r.value, items, i, fails, runId, actor, base);
    }
  }

  /** The loop over the remaining items; on a failure `reached` is the item it stopped at. */
  method QuarantineRemaining(
    ledger: AppendOnlyLedger, items: seq<Class>, fails: set<nat>,
    runId: string, actor: string, occurredAt: int, sequenceBase: int)
    returns (error: Option<Error>, quarantined: nat, retained: nat, ghost added: seq<Event>, ghost reached: nat)
    requires ValidChain(ledger.hash, ledger.store)
    modifies ledger
    ensures ValidChain(ledger.hash, ledger.store) && ledger.store == old(ledger.store) + added
    ensures reached <= |items| && QuarantineEvents(added, Quarantined(items[..reached]), runId, actor, sequenceBase)
    ensures error.None? ==>
      && reached == |items| && quarantined == |added| && quarantined + retained == |items|
      && Progress(ledger, old(ledger.store), old(ledger.durable), old(ledger.writes), added,
           items, reached, fails, runId, actor, sequenceBase)
    ensures error.Some? ==>
      || !AdapterHolds(items, |items|, fails)
      || !WritesHold(ledger.disk, old(ledger.writes), |Quarantined(items)|)
      || !Continues(old(ledger.store), sequenceBase)
  {
    ghost var store, durable, writes := ledger.store, ledger.durable, ledger.writes;
    quarantined, retained, added, error := 0, 0, [], None;
    for i := 0 to |items|
      invariant quarantined + retained == i && quarantined == |added|
      invariant Progress(ledger, store, durable, writes, added, items, i, fails, runId, actor, sequenceBase)
    {
      reached := i;
      QuarantinedSoFar(items, i);
      if Quarantines(items[i]) {
        var event := QuarantineItem(ledger, items, i, fails, runId, actor, occurredAt, sequenceBase + quarantined,
          store, durable, writes, added, sequenceBase);
        if event.Failure? {
          return Some(event.error), quarantined, retained, added, i;
        }
        added := added + [event.value];
        quarantined := quarantined + 1;
      } else {
        retained := retained + 1;
      }
    }
    reached := |items|;
  }

  datatype RollbackReport = RollbackReport(quarantined: nat, retained: nat, rollbackEvent: Event)

  /** The last event, once every item is settled. */
  method RecordRollback(
    ledger: AppendOnlyLedger, items: seq<Class>, fails: set<nat>,
    runId: string, actor: string, occurredAt: int, sequence: int,
    ghost store: seq<Event>, ghost durable: seq<Event>, ghost writes: nat, ghost added: seq<Event>)
    returns (r: Result<Event, Error>)
    requires Progress(ledger, store, durable, writes, added, items, |items|, fails, runId, actor, sequence - |added|)
    modifies ledger
    ensures ValidChain(ledger.hash, ledger.store)
    ensures r.Success? <==> Continues(store, sequence - |added|) && WritesHold(ledger.disk, writes, |added| + 1)
    ensures r.Success? ==>
      && r.value.content == RollbackContent(runId, actor, sequence + 1, None, LastHash(store + added))
      && ledger.store == store + (added + [r.value])
      && ledger.durable == durable + (added + [r.value])
    ensures r.Failure? ==> ledger.store == store + added
  {
    r := AppendNext(ledger, runId, actor, sequence + 1, None, occurredAt);
  }

  /** What a completed rollback leaves behind. */
  ghost predicate RolledBack(
    report: RollbackReport, added: seq<Event>, items: seq<Class>, runId: string, actor: string, base: int)
  {
    var n := report.quarantined;
    && n + report.retained == |items|
    && |added| == n + 1
    && QuarantineEvents(added[..n], Quarantined(items), runId, actor, base)
    && added[n] == report.rollbackEvent
    && added[n].content == RollbackContent(runId, actor, base + n + 1, None, added[n].content.predecessor)
  }

  /**
   Stop publishing and quarantine the remaining items. `fails` holds the items on which the adapter
   raises; without an adapter the run refuses before anything is touched.
   `added` is what the run leaves in the ledger: all of it, or what came before a failure.
   */
  method RollbackRun(
    ledger: AppendOnlyLedger, items: seq<Class>, fails: Option<set<nat>>,
    runId: string, actor: string, occurredAt: int, sequenceBase: int)
    returns (r: Result<RollbackReport, Error>, ghost added: seq<Event>, ghost reached: nat)
    requires ValidChain(ledger.hash, ledger.store)
    modifies ledger
    ensures ValidChain(ledger.hash, ledger.store)
    ensures ledger.store == old(ledger.store) + added
    ensures r.Success? <==>
        && fails.Some?
        && Continues(old(ledger.store), sequenceBase)
        && AdapterHolds(items, |items|, fails.value)
        && WritesHold(ledger.disk, old(ledger.writes), |Quarantined(items)| + 1)
    ensures r.Success? ==>
        && RolledBack(r.value, added, items, runId, actor, sequenceBase)
        && ledger.durable == old(ledger.durable) + added
    ensures r.Failure? ==>
        && reached <= |items|
        && QuarantineEvents(added, Quarantined(items[..reached]), runId, actor, sequenceBase)
        && (fails.None? ==> added == [])
  {
    if fails.None? {
      return Failure(QuarantineUnavailable), [], 0;
    }
    ghost var store, durable, writes := ledger.store, ledger.durable, ledger.writes;
    var error, quarantined, retained;
    error, quarantined, retained, added, reached :=
      QuarantineRemaining(ledger, items, fails.value, runId, actor, occurredAt, sequenceBase);
    if error.Some? {
      return Failure(error.value), added, reached;
    }
    assert items[..|items|] == items;
    var rollbackEvent := RecordRollback(
      ledger, items, fails.value, runId, actor, occurredAt, sequenceBase + quarantined, store, durable, writes, added);
    if rollbackEvent.Failure? {
      return Failure(rollbackEvent.error), added, reached;
    }
    assert (added + [rollbackEvent.value])[..quarantined] == added;
    added := added + [rollbackEvent.value];
    r := Success(RollbackReport(quarantined, retained, rollbackEvent.value));
  }

  lemma {:induction false} QuarantinedSoFar(items: seq<Class>, i: nat)
    requires i < |items|
    ensures Quarantined(items[..i + 1])
         == if Quarantines(items[i]) then Quarantined(items[..i]) + [items[i]] else Quarantined(items[..i])
    ensures |Quarantined(items[..i])| <= |Quarantined(items[..i + 1])| <= |Quarantined(items)|
    decreases |items| - i
  {
    assert items[..i + 1][..i] == items[..i];
    if i + 1 < |items| {
      QuarantinedSoFar(items, i + 1);
    } else {
      assert items[..i + 1] == items;
    }
  }
}
