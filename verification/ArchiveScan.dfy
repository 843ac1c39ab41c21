/**
 One bounded archive run over the dead-letter queue: hold what is retained, store before
 acknowledging what is archived, and release the held messages in reverse order.
 */
module ArchiveScan {
  import opened Prelude
  import opened ArchiveDecision

  /** A drawn message with the read stamp that the evidence lookup finds for it. */
  datatype Delivery = Delivery(message: Message, rereadAt: Option<int>)

  /** What the run has done to the outside world, in order. */
  datatype Effect = Stored(delivery: Delivery) | Acked(delivery: Delivery)

  /**
   Which calls go wrong, by the position of the drawn message. `ackAfter` holds acks that
   raise although the broker has removed the message; `lookupCancelled` and `cancelled` are
   lookups and stores that raise outside the handled errors; `nack` is by position in the
   release, and so is the cancellation that ends the release, `releaseCancelled`.
   */
  datatype Faults = Faults(
    get: set<nat>, lookup: set<nat>, lookupCancelled: set<nat>, store: set<nat>, cancelled: set<nat>,
    ack: set<nat>, ackAfter: set<nat>, nack: set<nat>, releaseCancelled: Option<nat>, close: bool)
  {
    /** The evidence of a message is not read. */
    predicate Unread(position: nat) {
      position in lookup || position in lookupCancelled
    }

    /** The requeue at a position of the release goes through. */
    predicate Requeued(position: nat) {
      position !in nack && (releaseCancelled.Some? ==> position < releaseCancelled.value)
    }

    /** The release of n messages is cancelled. */
    predicate ReleaseCut(n: nat) {
      releaseCancelled.Some? && releaseCancelled.value < n
    }
  }

  /** What became of one drawn message by the end of the scan. */
  datatype Fate = Held | Archived | Unsettled

  datatype StopReason = EvidenceReadFailed | ArchiveWriteFailed | ReleaseFailed

  datatype Report = Report(
    archived: nat, retained: nat, scanned: nat, wouldArchive: nat,
    byReason: map<Reason, nat>, stopped: Option<StopReason>, dryRun: bool)

  /** The messages of a fate, in draw order. */
  function Of(drawn: seq<Delivery>, fates: seq<Fate>, fate: Fate): seq<Delivery>
    requires |drawn| == |fates|
  {
    if drawn == [] then []
    else
      var n := |drawn| - 1;
      if fates[n] == fate then Of(drawn[..n], fates[..n], fate) + [drawn[n]] else Of(drawn[..n], fates[..n], fate)
  }

  lemma OfAfter(drawn: seq<Delivery>, fates: seq<Fate>, d: Delivery, f: Fate, fate: Fate)
    requires |drawn| == |fates|
    ensures Of(drawn + [d], fates + [f], fate)
         == if f == fate then Of(drawn, fates, fate) + [d] else Of(drawn, fates, fate)
  {
    assert (drawn + [d])[..|drawn|] == drawn && (fates + [f])[..|drawn|] == fates;
  }

  lemma {:induction false} AllHeld(drawn: seq<Delivery>, fates: seq<Fate>)
    requires |drawn| == |fates| && forall i | 0 <= i < |fates| :: fates[i].Held?
    ensures Of(drawn, fates, Held) == drawn
    ensures Of(drawn, fates, Archived) == []
  {
    if drawn != [] {
      AllHeld(drawn[..|drawn| - 1], fates[..|drawn| - 1]);
    }
  }

  lemma {:induction false} NoneUnsettled(drawn: seq<Delivery>, fates: seq<Fate>)
    requires |drawn| == |fates| && forall i | 0 <= i < |fates| :: !fates[i].Unsettled?
    ensures |drawn| == |Of(drawn, fates, Held)| + |Of(drawn, fates, Archived)|
  {
    if drawn != [] {
      NoneUnsettled(drawn[..|drawn| - 1], fates[..|drawn| - 1]);
    }
  }

  /** Every acknowledgement directly follows the record of the same message. */
  predicate StoredFirst(log: seq<Effect>) {
    forall i | 0 <= i < |log| && log[i].Acked? :: i > 0 && log[i - 1] == Stored(log[i].delivery)
  }

  /** The acknowledged messages, in order. */
  function AckedIn(log: seq<Effect>): seq<Delivery> {
    if log == [] then []
    else
      var last := log[|log| - 1];
      if last.Acked? then AckedIn(log[..|log| - 1]) + [last.delivery] else AckedIn(log[..|log| - 1])
  }

  lemma AckedAfter(log: seq<Effect>, e: Effect)
    ensures AckedIn(log + [e]) == if e.Acked? then AckedIn(log) + [e.delivery] else AckedIn(log)
  {
    assert (log + [e])[..|log|] == log;
  }

  function CountReason(decisions: seq<Decision>, r: Reason): nat {
    if decisions == [] then 0
    else CountReason(decisions[..|decisions| - 1], r) + if decisions[|decisions| - 1].reason == r then 1 else 0
  }

  function CountArchive(decisions: seq<Decision>): nat {
    if decisions == [] then 0
    else CountArchive(decisions[..|decisions| - 1]) + if decisions[|decisions| - 1].archive then 1 else 0
  }

  ghost predicate Tallied(byReason: map<Reason, nat>, decisions: seq<Decision>, r: Reason) {
    (if r in byReason then byReason[r] else 0) == CountReason(decisions, r)
  }

  /** The counter holds, for each reason, how many decisions gave it. */
  ghost predicate Tallies(byReason: map<Reason, nat>, decisions: seq<Decision>) {
    forall r :: Tallied(byReason, decisions, r)
  }

  function Count(counter: map<Reason, nat>, key: Reason): map<Reason, nat> {
    counter[key := (if key in counter then counter[key] else 0) + 1]
  }

  lemma TallyAfter(byReason: map<Reason, nat>, decisions: seq<Decision>, d: Decision)
    requires Tallies(byReason, decisions)
    ensures Tallies(Count(byReason, d.reason), decisions + [d])
    ensures CountArchive(decisions + [d]) == CountArchive(decisions) + if d.archive then 1 else 0
  {
    assert (decisions + [d])[..|decisions|] == decisions;
    forall r ensures Tallied(Count(byReason, d.reason), decisions + [d], r) {
      assert Tallied(byReason, decisions, r);
    }
  }

  /** The queue's ready messages, head first, and what the run has done to it. */
  class Broker {
    var ready: seq<Delivery>
    var log: seq<Effect>
    var closed: bool
    const faults: Faults

    constructor (ready: seq<Delivery>, faults: Faults)
      ensures this.ready == ready && this.faults == faults && log == [] && !closed
    {
      this.ready := ready;
      this.faults := faults;
      this.log := [];
      this.closed := false;
    }

    /** Draw the head of the queue; `Failure` is a call that raises. */
    method GetOne(position: nat) returns (r: Result<Option<Delivery>, ()>)
      modifies this`ready
      ensures r.Failure? <==> position in faults.get
      ensures r.Failure? ==> ready == old(ready)
      ensures r.Success? && r.value.None? ==> ready == old(ready) == []
      ensures r.Success? && r.value.Some? ==> old(ready) == [r.value.value] + ready
    {
      if position in faults.get {
        return Failure(());
      }
      if ready == [] {
        return Success(None);
      }
      r := Success(Some(ready[0]));
      ready := ready[1..];
    }

    /** Requeue one held message: it returns to the head of the queue. */
    method NackRequeue(d: Delivery, position: nat) returns (ok: bool)
      modifies this`ready
      ensures ok <==> position !in faults.nack
      ensures ready == if ok then [d] + old(ready) else old(ready)
    {
      ok := position !in faults.nack;
      if ok {
        ready := [d] + ready;
      }
    }
  }

  /** What one run decides with. */
  datatype Policy = Policy(coverage: Coverage, now: int, retention: int, dryRun: bool) {
    function Decision(d: Delivery): Decision {
      Decide(d.message, coverage, now, retention, d.rereadAt)
    }

    predicate Removes(d: Delivery) {
      Decision(d).archive && !dryRun
    }
  }

  /** How the scan continues after one message. */
  datatype Next = Continue | Stop(reason: StopReason) | Raise

  /** The fate of a message at a position, and how the scan continues. */
  function Disposal(position: nat, faults: Faults, removes: bool): (Fate, Next) {
    if position in faults.lookupCancelled then (Unsettled, Raise)
    else if position in faults.lookup then (Held, Stop(EvidenceReadFailed))
    else if !removes then (Held, Continue)
    else if position in faults.cancelled then (Unsettled, Raise)
    else if position in faults.store then (Held, Stop(ArchiveWriteFailed))
    else if position in faults.ack then (Unsettled, Raise)
    else if position in faults.ackAfter then (Archived, Raise)
    else (Archived, Continue)
  }

  /** Store the record, then remove the delivery. */
  method StoreAndAck(broker: Broker, d: Delivery, position: nat) returns (fate: Fate, next: Next)
    requires !broker.faults.Unread(position)
    modifies broker`log
    ensures (fate, next) == Disposal(position, broker.faults, true)
    ensures StoredFirst(old(broker.log)) ==> StoredFirst(broker.log)
    ensures AckedIn(broker.log) == if fate.Archived? then AckedIn(old(broker.log)) + [d] else AckedIn(old(broker.log))
  {
    if position in broker.faults.cancelled {
      return Unsettled, Raise;
    }
    if position in broker.faults.store {
      return Held, Stop(ArchiveWriteFailed);
    }
    AckedAfter(broker.log, Stored(d));
    broker.log := broker.log + [Stored(d)];
    if position in broker.faults.ack {
      return Unsettled, Raise;
    }
    AckedAfter(broker.log, Acked(d));
    broker.log := broker.log + [Acked(d)];
    return Archived, if position in broker.faults.ackAfter then Raise else Continue;
  }

  ghost predicate FateAt(queue: seq<Delivery>, fates: seq<Fate>, faults: Faults, policy: Policy, i: nat)
    requires i < |fates| <= |queue|
  {
    && fates[i] == Disposal(i, faults, policy.Removes(queue[i])).0
    && (i < |fates| - 1 ==> Disposal(i, faults, policy.Removes(queue[i])).1.Continue?)
  }

  /** The fates are what the policy and the faults dictate, and only the last one ends the scan. */
  ghost predicate Fated(queue: seq<Delivery>, fates: seq<Fate>, faults: Faults, policy: Policy) {
    && |fates| <= |queue|
    && forall i | 0 <= i < |fates| :: FateAt(queue, fates, faults, policy, i)
  }

  lemma FatedAfter(queue: seq<Delivery>, fates: seq<Fate>, faults: Faults, policy: Policy, f: Fate)
    requires Fated(queue, fates, faults, policy) && |fates| < |queue|
    requires fates != [] ==> Disposal(|fates| - 1, faults, policy.Removes(queue[|fates| - 1])).1.Continue?
    requires f == Disposal(|fates|, faults, policy.Removes(queue[|fates|])).0
    ensures Fated(queue, fates + [f], faults, policy)
  {
    forall i | 0 <= i <= |fates| ensures FateAt(queue, fates + [f], faults, policy, i) {
      if i < |fates| { assert FateAt(queue, fates, faults, policy, i); }
    }
  }

  /** The running totals of a scan. */
  datatype Tally = Tally(archived: nat, retained: nat, scanned: nat, wouldArchive: nat, byReason: map<Reason, nat>)

  /** One drawn message: look up its evidence, decide, count, and store and remove it if it goes. */
  method ScanOne(broker: Broker, policy: Policy, d: Delivery, position: nat, t: Tally, ghost decisions: seq<Decision>)
    returns (t': Tally, fate: Fate, next: Next, ghost decisions': seq<Decision>)
    requires Tallies(t.byReason, decisions) && t.wouldArchive == CountArchive(decisions)
    modifies broker`log
    ensures (fate, next) == Disposal(position, broker.faults, policy.Removes(d))
    ensures Tallies(t'.byReason, decisions') && t'.wouldArchive == CountArchive(decisions')
    ensures decisions' == if broker.faults.Unread(position) then decisions else decisions + [policy.Decision(d)]
    ensures t'.scanned == t.scanned + 1
    ensures t'.retained == t.retained + if fate.Held? then 1 else 0
    ensures t'.archived == t.archived + if fate.Archived? && next.Continue? then 1 else 0
    ensures StoredFirst(old(broker.log)) ==> StoredFirst(broker.log)
    ensures AckedIn(broker.log) == if fate.Archived? then AckedIn(old(broker.log)) + [d] else AckedIn(old(broker.log))
    ensures policy.dryRun ==> broker.log == old(broker.log)
  {
    t', fate, next, decisions' := t.(scanned := t.scanned + 1), Held, Continue, decisions;
    if position in broker.faults.lookupCancelled {
      return t', Unsettled, Raise, decisions;
    }
    if position in broker.faults.lookup {
      return t'.(retained := t.retained + 1), Held, Stop(EvidenceReadFailed), decisions;
    }
    var decision := policy.Decision(d);
    TallyAfter(t.byReason, decisions, decision);
    decisions' := decisions + [decision];
    t' := t'.(byReason := Count(t.byReason, decision.reason),
              wouldArchive := t.wouldArchive + if decision.archive then 1 else 0);
    if policy.dryRun || !decision.archive {
      t' := t'.(retained := t.retained + 1);
      return;
    }
    fate, next := StoreAndAck(broker, d, position);
    if fate.Held? {
      t' := t'.(retained := t.retained + 1);
    } else if next.Continue? {
      t' := t'.(archived := t.archived + 1);
    }
  }

  /** A scan so far: fates, held messages and totals belong together. */
  ghost predicate Scanned(
    queue: seq<Delivery>, fates: seq<Fate>, faults: Faults, policy: Policy, held: seq<Delivery>, t: Tally)
  {
    && Fated(queue, fates, faults, policy)
    && held == Of(queue[..|fates|], fates, Held)
    && t.retained == |held|
    && t.scanned == |fates|
  }

  /** The scan has not ended: every message so far was held or archived without trouble. */
  ghost predicate Ongoing(queue: seq<Delivery>, fates: seq<Fate>, faults: Faults, policy: Policy, t: Tally)
    requires |fates| <= |queue|
  {
    && (fates != [] ==> Disposal(|fates| - 1, faults, policy.Removes(queue[|fates| - 1])).1.Continue?)
    && t.archived == |Of(queue[..|fates|], fates, Archived)|
  }

  lemma OfDrawn(queue: seq<Delivery>, fates: seq<Fate>, fate: Fate, kind: Fate)
    requires |fates| < |queue|
    ensures Of(queue[..|fates| + 1], fates + [fate], kind)
         == if fate == kind then Of(queue[..|fates|], fates, kind) + [queue[|fates|]]
           else Of(queue[..|fates|], fates, kind)
  {
    var n := |fates|;
    assert queue[..n + 1] == queue[..n] + [queue[n]];
    OfAfter(queue[..n], fates, queue[n], fate, kind);
  }

  lemma ScannedAfter(
    queue: seq<Delivery>, fates: seq<Fate>, faults: Faults, policy: Policy, held: seq<Delivery>, t: Tally, t': Tally,
    fate: Fate, next: Next)
    requires Scanned(queue, fates, faults, policy, held, t) && |fates| < |queue|
    requires Ongoing(queue, fates, faults, policy, t)
    requires (fate, next) == Disposal(|fates|, faults, policy.Removes(queue[|fates|]))
    requires t'.scanned == t.scanned + 1
    requires t'.retained == t.retained + (if fate.Held? then 1 else 0)
    requires t'.archived == t.archived + (if fate.Archived? && next.Continue? then 1 else 0)
    ensures Scanned(queue, fates + [fate], faults, policy, if fate.Held? then held + [queue[|fates|]] else held, t')
    ensures Of(queue[..|fates| + 1], fates + [fate], Archived)
         == if fate.Archived? then Of(queue[..|fates|], fates, Archived) + [queue[|fates|]]
            else Of(queue[..|fates|], fates, Archived)
  {
    OfDrawn(queue, fates, fate, Held);
    OfDrawn(queue, fates, fate, Archived);
    FatedAfter(queue, fates, faults, policy, fate);
  }

  lemma StandingAfter(
    queue: seq<Delivery>, fates: seq<Fate>, faults: Faults, policy: Policy, t: Tally, t': Tally, fate: Fate, next: Next)
    requires |fates| < |queue| && t.archived == |Of(queue[..|fates|], fates, Archived)|
    requires (fate, next) == Disposal(|fates|, faults, policy.Removes(queue[|fates|]))
    requires t'.archived == t.archived + (if fate.Archived? && next.Continue? then 1 else 0)
    requires Of(queue[..|fates| + 1], fates + [fate], Archived)
         == if fate.Archived? then Of(queue[..|fates|], fates, Archived) + [queue[|fates|]]
            else Of(queue[..|fates|], fates, Archived)
    ensures Standing(queue, fates + [fate], faults, policy, t', next)
  {
  }

  ghost predicate DecidedAt(queue: seq<Delivery>, policy: Policy, decisions: seq<Decision>, i: nat)
    requires i < |decisions| <= |queue|
  {
    decisions[i] == policy.Decision(queue[i])
  }

  /** The decisions counted are those of the first messages drawn, all but a failed read. */
  ghost predicate Counted(
    queue: seq<Delivery>, faults: Faults, policy: Policy, fates: seq<Fate>, decisions: seq<Decision>, t: Tally)
  {
    && |fates| <= |queue|
    && |decisions| == |fates| - (if fates != [] && faults.Unread(|fates| - 1) then 1 else 0)
    && (forall i | 0 <= i < |decisions| :: DecidedAt(queue, policy, decisions, i))
    && Tallies(t.byReason, decisions)
    && t.wouldArchive == CountArchive(decisions)
  }

  lemma DecidedAfter(queue: seq<Delivery>, policy: Policy, decisions: seq<Decision>, d: Decision)
    requires |decisions| < |queue| && d == policy.Decision(queue[|decisions|])
    requires forall i | 0 <= i < |decisions| :: DecidedAt(queue, policy, decisions, i)
    ensures forall i | 0 <= i < |decisions| + 1 :: DecidedAt(queue, policy, decisions + [d], i)
  {
    var more := decisions + [d];
    forall i | 0 <= i < |more| ensures DecidedAt(queue, policy, more, i) {
      if i < |decisions| { assert DecidedAt(queue, policy, decisions, i); }
    }
  }

  lemma CountedAfter(
    queue: seq<Delivery>, faults: Faults, policy: Policy, fates: seq<Fate>, decisions: seq<Decision>,
    decisions': seq<Decision>, t: Tally, t': Tally, fate: Fate)
    requires Counted(queue, faults, policy, fates, decisions, t) && |decisions| == |fates| < |queue|
    requires decisions' == if faults.Unread(|fates|) then decisions else decisions + [policy.Decision(queue[|fates|])]
    requires Tallies(t'.byReason, decisions') && t'.wouldArchive == CountArchive(decisions')
    ensures Counted(queue, faults, policy, fates + [fate], decisions', t')
  {
    if !faults.Unread(|fates|) {
      DecidedAfter(queue, policy, decisions, policy.Decision(queue[|fates|]));
    }
  }

  /** Where the scan stands: still going, or ended by the last message drawn, or by the broker. */
  ghost predicate Standing(queue: seq<Delivery>, fates: seq<Fate>, faults: Faults, policy: Policy, t: Tally, next: Next)
    requires |fates| <= |queue|
  {
    match next
    case Continue => Ongoing(queue, fates, faults, policy, t)
    case Stop(_) =>
      && fates != []
      && next == Disposal(|fates| - 1, faults, policy.Removes(queue[|fates| - 1])).1
      && t.archived == |Of(queue[..|fates|], fates, Archived)|
    case Raise => true
  }

  /** Everything the loop keeps about the messages drawn so far. */
  ghost predicate Books(
    queue: seq<Delivery>, faults: Faults, log: seq<Effect>, policy: Policy, fates: seq<Fate>,
    decisions: seq<Decision>, held: seq<Delivery>, t: Tally, next: Next)
  {
    && Scanned(queue, fates, faults, policy, held, t)
    && Standing(queue, fates, faults, policy, t, next)
    && Counted(queue, faults, policy, fates, decisions, t)
    && StoredFirst(log)
    && AckedIn(log) == Of(queue[..|fates|], fates, Archived)
    && (policy.dryRun ==> log == [])
  }

  lemma BooksAfter(
    queue: seq<Delivery>, faults: Faults, log: seq<Effect>, log': seq<Effect>, policy: Policy, fates: seq<Fate>,
    decisions: seq<Decision>, decisions': seq<Decision>, held: seq<Delivery>, t: Tally, t': Tally, fate: Fate,
    next: Next)
    requires Books(queue, faults, log, policy, fates, decisions, held, t, Continue)
    requires |decisions| == |fates| < |queue|
    requires (fate, next) == Disposal(|fates|, faults, policy.Removes(queue[|fates|]))
    requires Tallies(t'.byReason, decisions') && t'.wouldArchive == CountArchive(decisions')
    requires decisions' == if faults.Unread(|fates|) then decisions else decisions + [policy.Decision(queue[|fates|])]
    requires t'.scanned == t.scanned + 1
    requires t'.retained == t.retained + (if fate.Held? then 1 else 0)
    requires t'.archived == t.archived + (if fate.Archived? && next.Continue? then 1 else 0)
    requires StoredFirst(log) ==> StoredFirst(log')
    requires AckedIn(log') == if fate.Archived? then AckedIn(log) + [queue[|fates|]] else AckedIn(log)
    requires policy.dryRun ==> log' == log
    ensures Books(queue, faults, log', policy, fates + [fate], decisions',
      if fate.Held? then held + [queue[|fates|]] else held, t', next)
  {
    ScannedAfter(queue, fates, faults, policy, held, t, t', fate, next);
    StandingAfter(queue, fates, faults, policy, t, t', fate, next);
    CountedAfter(queue, faults, policy, fates, decisions, decisions', t, t', fate);
  }

  /** The books, and what is left on the queue. */
  ghost predicate InStep(
    queue: seq<Delivery>, faults: Faults, ready: seq<Delivery>, log: seq<Effect>, policy: Policy, fates: seq<Fate>,
    decisions: seq<Decision>, held: seq<Delivery>, t: Tally, next: Next)
  {
    && Books(queue, faults, log, policy, fates, decisions, held, t, next)
    && |fates| <= |queue| && ready == queue[|fates|..]
  }

  /** Settle the message that was just drawn. */
  method TakeOne(
    broker: Broker, policy: Policy, d: Delivery, n: nat, held: seq<Delivery>, t: Tally,
    ghost queue: seq<Delivery>, ghost fates: seq<Fate>, ghost decisions: seq<Decision>)
    returns (t': Tally, held': seq<Delivery>, next: Next, ghost fates': seq<Fate>, ghost decisions': seq<Decision>)
    requires Books(queue, broker.faults, broker.log, policy, fates, decisions, held, t, Continue)
    requires n == |fates| == |decisions| < |queue| && d == queue[n]
    modifies broker`log
    ensures Books(queue, broker.faults, broker.log, policy, fates', decisions', held', t', next)
    ensures |fates'| == n + 1 && (next.Continue? ==> |decisions'| == n + 1)
    ensures next == Disposal(n, broker.faults, policy.Removes(d)).1
  {
    ghost var before := broker.log;
    var fate;
    t', fate, next, decisions' := ScanOne(broker, policy, d, n, t, decisions);
    BooksAfter(queue, broker.faults, before, broker.log, policy, fates, decisions, decisions', held, t, t', fate, next);
    fates' := fates + [fate];
    held' := if fate.Held? then held + [d] else held;
  }

  /** How one turn of the loop ends; `None` is an empty queue. */
  function Turn(queue: seq<Delivery>, faults: Faults, policy: Policy, n: nat): Option<Next> {
    if n in faults.get then Some(Raise)
    else if n >= |queue| then None
    else Some(Disposal(n, faults, policy.Removes(queue[n])).1)
  }

  /** How many messages a scan draws, from the given one on, and how it ends. */
  function Course(queue: seq<Delivery>, limit: nat, faults: Faults, policy: Policy, i: nat): (nat, Next)
    decreases limit - i
  {
    if i >= limit then (i, Continue)
    else
      match Turn(queue, faults, policy, i)
      case None => (i, Continue)
      case Some(Continue) => Course(queue, limit, faults, policy, i + 1)
      case Some(next) => (if i in faults.get then i else i + 1, next)
  }

  /** Turn i is reached and does not end the scan. */
  predicate GoesOn(queue: seq<Delivery>, faults: Faults, policy: Policy, i: nat) {
    Turn(queue, faults, policy, i) == Some(Continue)
  }

  predicate RaisesAt(queue: seq<Delivery>, limit: nat, faults: Faults, policy: Policy, from: nat, i: nat) {
    && from <= i < limit && Turn(queue, faults, policy, i) == Some(Raise)
    && forall j | from <= j < i :: GoesOn(queue, faults, policy, j)
  }

  /** A scan raises exactly when one of its turns does and those before it all go on. */
  lemma {:induction false} ScanRaisesIff(queue: seq<Delivery>, limit: nat, faults: Faults, policy: Policy, i: nat)
    ensures Course(queue, limit, faults, policy, i).1.Raise?
       <==> exists k: nat :: RaisesAt(queue, limit, faults, policy, i, k)
    decreases limit - i
  {
    if i < limit && GoesOn(queue, faults, policy, i) {
      ScanRaisesIff(queue, limit, faults, policy, i + 1);
      if Course(queue, limit, faults, policy, i).1.Raise? {
        var k: nat :| RaisesAt(queue, limit, faults, policy, i + 1, k);
        assert RaisesAt(queue, limit, faults, policy, i, k);
      }
      if k: nat :| RaisesAt(queue, limit, faults, policy, i, k) {
        assert RaisesAt(queue, limit, faults, policy, i + 1, k);
      }
    } else if i < limit && Turn(queue, faults, policy, i) == Some(Raise) {
      assert RaisesAt(queue, limit, faults, policy, i, i);
    } else {
      forall k: nat ensures !RaisesAt(queue, limit, faults, policy, i, k) {
      }
    }
  }

  /** One turn of the loop; `None` is an empty queue. */
  method DrawNext(
    broker: Broker, policy: Policy, n: nat, held: seq<Delivery>, t: Tally,
    ghost queue: seq<Delivery>, ghost fates: seq<Fate>, ghost decisions: seq<Decision>)
    returns (t': Tally, held': seq<Delivery>, next: Option<Next>, ghost fates': seq<Fate>,
      ghost decisions': seq<Decision>)
    requires InStep(queue, broker.faults, broker.ready, broker.log, policy, fates, decisions, held, t, Continue)
    requires n == |fates| == |decisions|
    modifies broker`ready, broker`log
    ensures InStep(queue, broker.faults, broker.ready, broker.log, policy, fates', decisions', held', t',
      if next.Some? then next.value else Continue)
    ensures |fates'| <= |queue|
    ensures next.None? ==> fates' == fates && decisions' == decisions && |fates| == |queue|
    ensures next.Some? && !next.value.Raise? ==> |fates'| == n + 1
    ensures n <= |fates'| <= n + 1
    ensures next == Some(Continue) ==> |decisions'| == n + 1
    ensures next == Turn(queue, broker.faults, policy, n)
    ensures |fates'| == if next.None? || n in broker.faults.get then n else n + 1
  {
    t', held', fates', decisions' := t, held, fates, decisions;
    var got := broker.GetOne(n);
    if got.Failure? {
      return t, held, Some(Raise), fates, decisions;
    }
    if got.value.None? {
      return t, held, None, fates, decisions;
    }
    ghost var rest := queue[n..];
    assert rest[0] == queue[n] && rest[1..] == queue[n + 1..];
    var outcome;
    t', held', outcome, fates', decisions' :=
      TakeOne(broker, policy, got.value.value, n, held, t, queue, fates, decisions);
    next := Some(outcome);
  }

  lemma NothingDrawn(queue: seq<Delivery>, faults: Faults, policy: Policy)
    ensures InStep(queue, faults, queue, [], policy, [], [], [], Tally(0, 0, 0, 0, map[]), Continue)
  {
  }

  /**
   The scan: draw up to `limit` messages. `fates` says what became of each; `next` is how
   the loop ended.
   */
  method Scan(broker: Broker, policy: Policy, limit: nat)
    returns (t: Tally, held: seq<Delivery>, next: Next, ghost fates: seq<Fate>, ghost decisions: seq<Decision>)
    requires broker.log == []
    modifies broker`ready, broker`log
    ensures InStep(old(broker.ready), broker.faults, broker.ready, broker.log, policy, fates, decisions, held, t, next)
    ensures next.Continue? ==> |fates| == Min(limit, |old(broker.ready)|)
    ensures |fates| <= limit
    ensures (|fates|, next) == Course(old(broker.ready), limit, broker.faults, policy, 0)
  {
    ghost var queue := broker.ready;
    NothingDrawn(queue, broker.faults, policy);
    t, held, next, fates, decisions := Tally(0, 0, 0, 0, map[]), [], Continue, [], [];
    for n := 0 to limit
      invariant n == |fates| == |decisions| && next.Continue?
      invariant InStep(queue, broker.faults, broker.ready, broker.log, policy, fates, decisions, held, t, Continue)
      invariant n <= |queue|
      invariant Course(queue, limit, broker.faults, policy, n) == Course(queue, limit, broker.faults, policy, 0)
    {
      var turn;
      t, held, turn, fates, decisions := DrawNext(broker, policy, n, held, t, queue, fates, decisions);
      if turn.None? {
        break;
      }
      next := turn.value;
      if !next.Continue? {
        break;
      }
    }
  }

  /** The held messages whose requeue went through; the first one is requeued last. */
  function Released(held: seq<Delivery>, faults: Faults): seq<Delivery> {
    if held == [] then []
    else (if faults.Requeued(|held| - 1) then [held[0]] else []) + Released(held[1..], faults)
  }

  /** None of the first n requeues raises. */
  ghost predicate Requeues(n: nat, faults: Faults) {
    forall k: nat | k < n :: faults.Requeued(k)
  }

  lemma {:induction false} CleanRelease(held: seq<Delivery>, faults: Faults)
    requires Requeues(|held|, faults)
    ensures Released(held, faults) == held
  {
    if held != [] {
      CleanRelease(held[1..], faults);
    }
  }

  lemma ReleasedStep(held: seq<Delivery>, i: nat, faults: Faults, ready: seq<Delivery>)
    requires i < |held|
    ensures Released(held[i..], faults) + ready ==
      if faults.Requeued(|held| - 1 - i) then [held[i]] + (Released(held[i + 1..], faults) + ready)
      else Released(held[i + 1..], faults) + ready
    ensures Requeues(|held| - i, faults) <==> Requeues(|held| - 1 - i, faults) && faults.Requeued(|held| - 1 - i)
  {
    assert held[i..][1..] == held[i + 1..];
  }

  /** Nothing is released at or after the cancellation. */
  lemma {:induction false} ReleasedAfterCut(held: seq<Delivery>, i: nat, faults: Faults)
    requires i <= |held| && faults.ReleaseCut(|held| - i)
    ensures Released(held, faults) == Released(held[i..], faults)
    decreases i
  {
    if i == 0 {
      assert held[0..] == held;
    } else {
      ReleasedAfterCut(held[1..], i - 1, faults);
      assert held[1..][i - 1..] == held[i..];
    }
  }

  /** The messages from the given one on are released, and `failed` says whether a requeue raised. */
  ghost predicate ReleasedFrom(
    held: seq<Delivery>, i: nat, faults: Faults, before: seq<Delivery>, ready: seq<Delivery>, failed: bool)
  {
    match failed
    case true =>
      && i <= |held| && ready == Released(held[i..], faults) + before
      && !faults.ReleaseCut(|held| - i) && !Requeues(|held| - i, faults)
    case false =>
      && i <= |held| && ready == Released(held[i..], faults) + before
      && !faults.ReleaseCut(|held| - i) && Requeues(|held| - i, faults)
  }

  lemma ReleasedOneMore(
    held: seq<Delivery>, i: nat, faults: Faults, before: seq<Delivery>, ready: seq<Delivery>, failed: bool)
    requires i < |held| && ReleasedFrom(held, i + 1, faults, before, ready, failed)
    requires faults.releaseCancelled != Some(|held| - 1 - i)
    ensures var ok := faults.Requeued(|held| - 1 - i);
      ReleasedFrom(held, i, faults, before, if ok then [held[i]] + ready else ready, failed || !ok)
  {
    ReleasedStep(held, i, faults, before);
  }

  lemma ReleasedUntilCut(
    held: seq<Delivery>, i: nat, faults: Faults, before: seq<Delivery>, ready: seq<Delivery>, failed: bool)
    requires i < |held| && ReleasedFrom(held, i + 1, faults, before, ready, failed)
    requires faults.releaseCancelled == Some(|held| - 1 - i)
    ensures ready == Released(held, faults) + before && faults.ReleaseCut(|held|)
  {
    ReleasedStep(held, i, faults, before);
    ReleasedAfterCut(held, i, faults);
  }

  lemma AllReleased(
    held: seq<Delivery>, faults: Faults, before: seq<Delivery>, ready: seq<Delivery>, failed: bool)
    requires ReleasedFrom(held, 0, faults, before, ready, failed)
    ensures ready == Released(held, faults) + before && !faults.ReleaseCut(|held|)
    ensures failed <==> !Requeues(|held|, faults)
  {
    assert held[0..] == held;
  }

  /** Release in reverse draw order: each requeue goes to the head of the queue. */
  method Release(broker: Broker, held: seq<Delivery>) returns (failed: bool, cancelled: bool)
    modifies broker`ready
    ensures broker.ready == Released(held, broker.faults) + old(broker.ready)
    ensures cancelled <==> broker.faults.ReleaseCut(|held|)
    ensures !cancelled ==> (failed <==> !Requeues(|held|, broker.faults))
  {
    failed := false;
    ghost var before := broker.ready;
    for i := |held| downto 0
      invariant ReleasedFrom(held, i, broker.faults, before, broker.ready, failed)
    {
      if broker.faults.releaseCancelled == Some(|held| - 1 - i) {
        ReleasedUntilCut(held, i, broker.faults, before, broker.ready, failed);
        return failed, true;
      }
      ReleasedOneMore(held, i, broker.faults, before, broker.ready, failed);
      var ok := broker.NackRequeue(held[i], |held| - 1 - i);
      if !ok {
        failed := true;
      }
    }
    AllReleased(held, broker.faults, before, broker.ready, failed);
    cancelled := false;
  }

  datatype Exit = Returned(report: Report) | Raised

  lemma {:induction false} NoneUnsettledBut(
    queue: seq<Delivery>, fates: seq<Fate>, faults: Faults, policy: Policy)
    requires Fated(queue, fates, faults, policy)
    requires fates != [] ==> !Disposal(|fates| - 1, faults, policy.Removes(queue[|fates| - 1])).1.Raise?
    ensures forall i | 0 <= i < |fates| :: !fates[i].Unsettled?
    ensures |fates| == |Of(queue[..|fates|], fates, Held)| + |Of(queue[..|fates|], fates, Archived)|
  {
    forall i | 0 <= i < |fates| ensures !fates[i].Unsettled? {
      assert FateAt(queue, fates, faults, policy, i);
    }
    NoneUnsettled(queue[..|fates|], fates);
  }

  /** A message may leave the queue: the run is no dry run, and a re-read, coverage or age authorises it. */
  ghost predicate MayLeave(d: Delivery, policy: Policy) {
    !policy.dryRun && Removable(d.message, policy.coverage, policy.now, policy.retention, d.rereadAt)
  }

  lemma RemovesIff(d: Delivery, policy: Policy)
    ensures policy.Removes(d) <==> MayLeave(d, policy)
  {
    ArchivesIff(d.message, policy.coverage, policy.now, policy.retention, d.rereadAt);
  }

  /** A scan that is never disturbed archives exactly the messages that may leave. */
  ghost predicate ArchivesExactly(queue: seq<Delivery>, fates: seq<Fate>, policy: Policy)
    requires |fates| <= |queue|
  {
    forall i | 0 <= i < |fates| :: fates[i].Archived? <==> MayLeave(queue[i], policy)
  }

  lemma {:induction false} OnlyArchived(drawn: seq<Delivery>, fates: seq<Fate>, d: Delivery)
    requires |drawn| == |fates| && d in Of(drawn, fates, Archived)
    ensures exists i | 0 <= i < |drawn| :: drawn[i] == d && fates[i].Archived?
  {
    var n := |drawn| - 1;
    if d in Of(drawn[..n], fates[..n], Archived) {
      OnlyArchived(drawn[..n], fates[..n], d);
    }
  }

  /** Whatever leaves the queue may leave it, however the run ends. */
  lemma OnlyAuthorisedLeave(queue: seq<Delivery>, fates: seq<Fate>, faults: Faults, policy: Policy, d: Delivery)
    requires Fated(queue, fates, faults, policy) && d in Of(queue[..|fates|], fates, Archived)
    ensures MayLeave(d, policy)
  {
    OnlyArchived(queue[..|fates|], fates, d);
    var i :| 0 <= i < |fates| && queue[..|fates|][i] == d && fates[i].Archived?;
    assert FateAt(queue, fates, faults, policy, i);
    RemovesIff(d, policy);
  }

  lemma UndisturbedArchives(queue: seq<Delivery>, fates: seq<Fate>, faults: Faults, policy: Policy)
    requires Fated(queue, fates, faults, policy)
    requires fates != [] ==> Disposal(|fates| - 1, faults, policy.Removes(queue[|fates| - 1])).1.Continue?
    ensures ArchivesExactly(queue, fates, policy)
  {
    forall i | 0 <= i < |fates| ensures fates[i].Archived? <==> MayLeave(queue[i], policy) {
      assert FateAt(queue, fates, faults, policy, i);
      RemovesIff(queue[i], policy);
    }
  }

  /** What a report that is returned says about the run. */
  ghost predicate Reported(
    r: Report, queue: seq<Delivery>, faults: Faults, policy: Policy, limit: nat, fates: seq<Fate>,
    decisions: seq<Decision>)
    requires |fates| <= |queue|
  {
    var held := Of(queue[..|fates|], fates, Held);
    // Every drawn message was archived or retained, and the counts say so.
    && (forall i | 0 <= i < |fates| :: !fates[i].Unsettled?)
    && r.scanned == |fates| == r.archived + r.retained
    && r.archived == |Of(queue[..|fates|], fates, Archived)| && r.retained == |held|
    // A run that reports no trouble went to the limit or the end, archived exactly what it
    // may remove, and put everything else back.
    && (r.stopped.None? ==>
          |fates| == Min(limit, |queue|) && ArchivesExactly(queue, fates, policy) && Released(held, faults) == held)
    // It says why it stopped: what ended the scan, or else a requeue that raised.
    && r.stopped == (match Course(queue, limit, faults, policy, 0).1
                     case Stop(reason) => Some(reason)
                     case _ => if Requeues(|held|, faults) then None else Some(ReleaseFailed))
    // The reasons are counted over the decisions taken.
    && Counted(queue, faults, policy, fates, decisions,
      Tally(r.archived, r.retained, r.scanned, r.wouldArchive, r.byReason))
  }

  /**
   The archive run. On every exit each acknowledged message had its record stored first,
   the acknowledged messages are the archived ones in draw order, and what is back on the
   queue are the held messages, in their original order, before the messages never drawn.
   It raises exactly when the scan or the close does, or the release is cancelled, and only
   that cancellation leaves the channel open.
   */
  method RunArchive(broker: Broker, policy: Policy, limit: nat)
    returns (exit: Exit, ghost fates: seq<Fate>, ghost decisions: seq<Decision>)
    requires broker.log == [] && !broker.closed
    modifies broker
    ensures StoredFirst(broker.log) && (policy.dryRun ==> broker.log == [])
    ensures |fates| <= Min(limit, |old(broker.ready)|) && Fated(old(broker.ready), fates, broker.faults, policy)
    ensures |fates| == Course(old(broker.ready), limit, broker.faults, policy, 0).0
    ensures AckedIn(broker.log) == Of(old(broker.ready)[..|fates|], fates, Archived)
    ensures forall d | d in AckedIn(broker.log) :: MayLeave(d, policy)
    ensures var held := Of(old(broker.ready)[..|fates|], fates, Held);
      && broker.ready == Released(held, broker.faults) + old(broker.ready)[|fates|..]
      && (broker.closed <==> !broker.faults.ReleaseCut(|held|))
      && (exit.Raised? <==>
            || Course(old(broker.ready), limit, broker.faults, policy, 0).1.Raise?
            || broker.faults.ReleaseCut(|held|) || broker.faults.close)
    ensures exit.Returned? ==>
      Reported(exit.report, old(broker.ready), broker.faults, policy, limit, fates, decisions)
  {
    ghost var queue := broker.ready;
    var t, held, next;
    t, held, next, fates, decisions := Scan(broker, policy, limit);
    var failed, cancelled := Release(broker, held);
    forall d | d in AckedIn(broker.log) ensures MayLeave(d, policy) {
      OnlyAuthorisedLeave(queue, fates, broker.faults, policy, d);
    }
    if cancelled {
      return Raised, fates, decisions;
    }
    broker.closed := true;
    if next.Raise? || broker.faults.close {
      return Raised, fates, decisions;
    }
    var stopped := if next.Stop? then Some(next.reason) else if failed then Some(ReleaseFailed) else None;
    var report := Report(t.archived, t.retained, t.scanned, t.wouldArchive, t.byReason, stopped, policy.dryRun);
    NoneUnsettledBut(queue, fates, broker.faults, policy);
    if next.Continue? {
      UndisturbedArchives(queue, fates, broker.faults, policy);
    }
    if !failed {
      CleanRelease(held, broker.faults);
    }
    exit := Returned(report);
  }

  lemma DryRunHolds(queue: seq<Delivery>, fates: seq<Fate>, faults: Faults, policy: Policy)
    requires policy.dryRun && Fated(queue, fates, faults, policy)
    requires forall i: nat | i < |fates| :: i !in faults.lookupCancelled
    ensures Of(queue[..|fates|], fates, Held) == queue[..|fates|]
  {
    forall i | 0 <= i < |fates| ensures fates[i].Held? {
      assert FateAt(queue, fates, faults, policy, i);
    }
    AllHeld(queue[..|fates|], fates);
  }

  lemma {:induction false} SomeUnheld(drawn: seq<Delivery>, fates: seq<Fate>, i: nat)
    requires i < |drawn| == |fates| && !fates[i].Held?
    ensures |Of(drawn, fates, Held)| < |drawn|
  {
    var n := |drawn| - 1;
    AtMost(drawn[..n], fates[..n]);
    if i < n {
      SomeUnheld(drawn[..n], fates[..n], i);
    }
  }

  lemma {:induction false} AtMost(drawn: seq<Delivery>, fates: seq<Fate>)
    requires |drawn| == |fates|
    ensures |Of(drawn, fates, Held)| <= |drawn|
  {
    if drawn != [] {
      AtMost(drawn[..|drawn| - 1], fates[..|drawn| - 1]);
    }
  }

  /** A dry run that releases everything leaves the queue as it found it, but for a cancelled evidence read. */
  lemma DryRunRestoresQueue(
    queue: seq<Delivery>, ready: seq<Delivery>, fates: seq<Fate>, faults: Faults, policy: Policy)
    requires policy.dryRun && Fated(queue, fates, faults, policy)
    requires ready == Released(Of(queue[..|fates|], fates, Held), faults) + queue[|fates|..]
    requires Requeues(|Of(queue[..|fates|], fates, Held)|, faults)
    ensures ready == queue <==> forall i: nat | i < |fates| :: i !in faults.lookupCancelled
  {
    CleanRelease(Of(queue[..|fates|], fates, Held), faults);
    if forall i: nat | i < |fates| :: i !in faults.lookupCancelled {
      DryRunHolds(queue, fates, faults, policy);
    } else {
      var i: nat :| i < |fates| && i in faults.lookupCancelled;
      assert FateAt(queue, fates, faults, policy, i);
      SomeUnheld(queue[..|fates|], fates, i);
    }
  }
}
