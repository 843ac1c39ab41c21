/**
 Several processes replaying against one durable ledger, each with the memory it loaded.
 The ledger checks an event against memory alone, so what keeps two processes from
 publishing the same message is when they read the disk.
 */
module ReplayProcesses {
  import opened Prelude
  import opened ReplayLedger
  import opened ReplayProtocol

  datatype Process = Process(memory: seq<Event>, phase: Phase)

  datatype World = World(durable: seq<Event>, history: seq<Effect>, processes: seq<Process>)

  /** What one process has to do with. */
  function View(w: World, p: nat): State
    requires p < |w.processes|
  {
    State(w.durable, w.processes[p].memory, w.processes[p].phase, w.history)
  }

  /** One process takes a step; the others keep their memory and their phase. */
  function StepOf(w: World, p: nat, step: Step): (w': World)
    requires p < |w.processes|
    ensures |w'.processes| == |w.processes| && View(w', p) == Next(View(w, p), step)
    ensures forall q | 0 <= q < |w.processes| && q != p :: w'.processes[q] == w.processes[q]
  {
    var s := Next(View(w, p), step);
    World(s.durable, s.history, w.processes[p := Process(s.memory, s.phase)])
  }

  datatype Move = Move(process: nat, step: Step)

  predicate Possible(w: World, moves: seq<Move>) {
    forall m | m in moves :: m.process < |w.processes|
  }

  function Moves(w: World, moves: seq<Move>): (w': World)
    requires Possible(w, moves)
    ensures |w'.processes| == |w.processes|
  {
    if moves == [] then w
    else
      var last := moves[|moves| - 1];
      StepOf(Moves(w, moves[..|moves| - 1]), last.process, last.step)
  }

  /** Each process has just loaded the ledger. */
  predicate Fresh(w: World) {
    w.history == [] && forall i | 0 <= i < |w.processes| :: w.processes[i] == Process(w.durable, Idle)
  }

  predicate Holds(w: World, q: nat, f: string) {
    q < |w.processes| && w.processes[q].phase == Reserved(f)
  }

  /** The message may have been published, or another process has reserved it and may publish. */
  ghost predicate Contended(w: World, p: nat, f: string) {
    Open(w.history, f) || exists q: nat :: q != p && Holds(w, q, f)
  }

  /** A process reserves a message that its memory does not know to be contended. */
  ghost predicate Overlooks(w: World, p: nat, step: Step)
    requires p < |w.processes|
  {
    && step.Reserve? && w.processes[p].phase == Gated(step.event.content.fingerprint)
    && step.event.content.reason == Some(ReplayReserved)
    && Refusal(w.processes[p].memory, step.event).None? && step.persist.Written?
    && Contended(w, p, step.event.content.fingerprint)
  }

  /** A process declares a message unpublished that some process has reserved and not yet published. */
  ghost predicate ReconcilesHeld(w: World, p: nat, step: Step)
    requires p < |w.processes|
  {
    && step.AppendOther? && Lands(w.processes[p].memory, step.event, step.persist)
    && exists q: nat, f :: Holds(w, q, f) && Reconciles(step.event, f)
  }

  ghost predicate Careful(w: World, p: nat, step: Step)
    requires p < |w.processes|
  {
    !Overlooks(w, p, step) && !ReconcilesHeld(w, p, step)
  }

  ghost predicate AllCareful(w: World, moves: seq<Move>)
    requires Possible(w, moves)
  {
    moves == []
    || (AllCareful(w, moves[..|moves| - 1])
        && Careful(Moves(w, moves[..|moves| - 1]), moves[|moves| - 1].process, moves[|moves| - 1].step))
  }

  ghost predicate HeldSafely(w: World, q: nat, f: string) {
    Holds(w, q, f) ==>
      && !Open(w.history, f) && Blocked(w.durable, Some(f))
      && forall r: nat | r != q :: !Holds(w, r, f)
  }

  /** Nothing is asked of any memory: only the disk and the reservations count. */
  ghost predicate WorldInv(w: World) {
    && Separated(w.history)
    && UnsafeIsBlocked(w.history, w.durable)
    && forall q: nat, f :: HeldSafely(w, q, f)
  }

  /** A contended message is blocked on disk, so that a gate asked of the disk is never open for it. */
  lemma ContendedIsBlocked(w: World, p: nat, f: string)
    requires WorldInv(w) && Contended(w, p, f)
    ensures Blocked(w.durable, Some(f))
  {
    if !Open(w.history, f) {
      var q: nat :| q != p && Holds(w, q, f);
      assert HeldSafely(w, q, f);
    }
  }

  /** An event on disk that reconciles nothing held keeps the disk, the history and the other processes in order. */
  lemma AppendKeeps(w: World, w': World, e: Event)
    requires WorldInv(w)
    requires w'.durable == w.durable + [e] && w'.history == w.history + [OnDisk(e)]
    requires forall q: nat, f | Holds(w', q, f) && !Holds(w, q, f) ::
      && !Open(w.history, f) && !(exists r: nat :: r != q && Holds(w, r, f))
      && e.content.fingerprint == f && e.content.reason == Some(ReplayReserved)
    requires forall q: nat, f | Holds(w, q, f) :: !Reconciles(e, f)
    requires forall q: nat, r: nat, f | q != r && Holds(w', q, f) && Holds(w', r, f) :: Holds(w, q, f) || Holds(w, r, f)
    ensures WorldInv(w')
  {
    SeparatedAfter(w.history, OnDisk(e));
    forall f ensures Open(w'.history, f) ==> Open(w.history, f) && Blocked(w'.durable, Some(f)) {
      OpenAfter(w.history, OnDisk(e), f);
      BlockedAfter(w.durable, e, Some(f));
    }
    forall q: nat, f ensures HeldSafely(w', q, f) {
      OpenAfter(w.history, OnDisk(e), f);
      BlockedAfter(w.durable, e, Some(f));
      assert HeldSafely(w, q, f);
      if Holds(w', q, f) {
        forall r: nat | r != q ensures !Holds(w', r, f) {
          assert HeldSafely(w, r, f);
        }
      }
    }
  }

  lemma NothingNewHeld(w: World, w': World)
    requires WorldInv(w) && w'.durable == w.durable && w'.history == w.history
    requires forall q: nat, f | Holds(w', q, f) :: Holds(w, q, f)
    ensures WorldInv(w')
  {
    forall q: nat, f ensures HeldSafely(w', q, f) {
      assert HeldSafely(w, q, f);
    }
  }

  lemma PublishKeeps(w: World, p: nat, f: string)
    requires WorldInv(w) && Holds(w, p, f)
    ensures WorldInv(StepOf(w, p, PublishNow))
  {
    var w' := StepOf(w, p, PublishNow);
    assert HeldSafely(w, p, f);
    SeparatedAfter(w.history, Publish(f));
    forall g ensures Open(w'.history, g) ==> g == f || Open(w.history, g) {
      OpenAfter(w.history, Publish(f), g);
    }
    forall q: nat, g ensures HeldSafely(w', q, g) {
      assert HeldSafely(w, q, g);
      forall r: nat | r != q && Holds(w', q, g) ensures !Holds(w', r, g) {
        assert Holds(w, q, g) && (Holds(w', r, g) ==> Holds(w, r, g));
      }
    }
  }

  lemma StepKeepsWorldInv(w: World, p: nat, step: Step)
    requires WorldInv(w) && p < |w.processes| && Careful(w, p, step)
    ensures WorldInv(StepOf(w, p, step))
  {
    var w' := StepOf(w, p, step);
    if step.PublishNow? && w.processes[p].phase.Reserved? {
      PublishKeeps(w, p, w.processes[p].phase.fingerprint);
    } else if w'.durable == w.durable {
      NothingNewHeld(w, w');
    } else {
      AppendKeeps(w, w', step.event);
    }
  }

  /**
   However the steps of any number of processes interleave, with crashes and reloads, no
   message is published twice without a durable reconciliation in between, as long as no
   process overlooks a contended message and none reconciles a reserved one.
   */
  lemma {:induction false} CarefulProcessesSeparate(w: World, moves: seq<Move>)
    requires Fresh(w) && Possible(w, moves) && AllCareful(w, moves)
    ensures WorldInv(Moves(w, moves)) && Separated(Moves(w, moves).history)
  {
    if moves != [] {
      var n := |moves| - 1;
      CarefulProcessesSeparate(w, moves[..n]);
      StepKeepsWorldInv(Moves(w, moves[..n]), moves[n].process, moves[n].step);
    }
  }

  /** No move of a run reconciles a message that is reserved and not yet published. */
  ghost predicate NoneReconcilesHeld(w: World, moves: seq<Move>)
    requires Possible(w, moves)
  {
    moves == []
    || (NoneReconcilesHeld(w, moves[..|moves| - 1])
        && !ReconcilesHeld(
              Moves(w, moves[..|moves| - 1]), moves[|moves| - 1].process, moves[|moves| - 1].step))
  }

  /** Each reservation is made while the disk does not block its message. */
  ghost predicate ReadsBeforeReserving(w: World, moves: seq<Move>)
    requires Possible(w, moves)
  {
    moves == []
    || (ReadsBeforeReserving(w, moves[..|moves| - 1])
        && (moves[|moves| - 1].step.Reserve? ==>
              !Blocked(
                Moves(w, moves[..|moves| - 1]).durable, Some(moves[|moves| - 1].step.event.content.fingerprint))))
  }

  /** Reading the disk again before each reservation is enough: then no process overlooks anything. */
  lemma {:induction false} ReadingAgainIsCareful(w: World, moves: seq<Move>)
    requires Fresh(w) && Possible(w, moves)
    requires ReadsBeforeReserving(w, moves) && NoneReconcilesHeld(w, moves)
    ensures AllCareful(w, moves) && WorldInv(Moves(w, moves))
  {
    if moves != [] {
      var n := |moves| - 1;
      ReadingAgainIsCareful(w, moves[..n]);
      var before, p, step := Moves(w, moves[..n]), moves[n].process, moves[n].step;
      OverlookedIsBlocked(before, p, step);
      StepKeepsWorldInv(before, p, step);
    }
  }

  lemma OverlookedIsBlocked(w: World, p: nat, step: Step)
    requires WorldInv(w) && p < |w.processes|
    ensures Overlooks(w, p, step) ==> Blocked(w.durable, Some(step.event.content.fingerprint))
  {
    if Overlooks(w, p, step) {
      ContendedIsBlocked(w, p, step.event.content.fingerprint);
    }
  }

  // ---------------------------------------------------------------------------
  // The condition cannot be spared
  // ---------------------------------------------------------------------------

  lemma PublishAgain(history: seq<Effect>, f: string)
    requires Open(history, f)
    ensures !Separated(history + [Publish(f)])
  {
    var more, n := history + [Publish(f)], |history|;
    var i :| 0 <= i < n && history[i] == Publish(f) && !ReconciledBetween(history, f, i, n);
    assert more[i] == more[n] == Publish(f);
  }

  /** What may follow an overlooked reservation: whoever has reserved the message publishes it. */
  function Publishing(p: nat, q: nat, step: Step): seq<Move> {
    [Move(p, step), Move(p, PublishNow), Move(q, PublishNow)]
  }

  lemma ThreeMoves(w: World, a: Move, b: Move, c: Move)
    requires Possible(w, [a, b, c])
    ensures Moves(w, [a, b, c])
         == StepOf(StepOf(StepOf(w, a.process, a.step), b.process, b.step), c.process, c.step)
  {
    assert [a, b, c][..2] == [a, b] && [a, b][..1] == [a] && [a][..0] == [];
    assert Moves(w, [a]) == StepOf(w, a.process, a.step);
    assert Moves(w, [a, b]) == StepOf(Moves(w, [a]), b.process, b.step);
  }

  /**
   From every state, an overlooked reservation can be followed by publishes alone that break
   the separation: of the process itself, or of it and the one that had reserved the message.
   */
  lemma OverlookingRepublishes(w: World, p: nat, step: Step) returns (q: nat)
    requires p < |w.processes| && Overlooks(w, p, step)
    ensures q < |w.processes| && !Separated(Moves(w, Publishing(p, q, step)).history)
  {
    var f := step.event.content.fingerprint;
    var w1 := StepOf(w, p, step);
    var w2 := StepOf(w1, p, PublishNow);
    assert w1.processes[p].phase == Reserved(f) && w1.history == w.history + [OnDisk(step.event)];
    assert w2.history == w1.history + [Publish(f)];
    OpenAfter(w.history, OnDisk(step.event), f);
    OpenAfter(w1.history, Publish(f), f);
    if exists r: nat :: r != p && Holds(w, r, f) {
      q :| q != p && Holds(w, q, f);
      assert Holds(w2, q, f);
      PublishAgain(w2.history, f);
    } else {
      q := p;
      PublishAgain(w1.history, f);
    }
    ThreeMoves(w, Move(p, step), Move(p, PublishNow), Move(q, PublishNow));
  }

  /** The gate, asked about a replay candidate without any other proof of a replay. */
  function Gating(f: string): Step {
    Gate(ReplayCandidate, false, false, f)
  }

  /**
   Two processes that loaded the ledger before either reserved do overlook each other: both
   gates open, and the second reservation is of a contended message that the disk blocks.
   */
  lemma TwoLoadersOverlook(w: World, p: nat, q: nat, f: string, first: Event, second: Event) returns (w': World)
    requires Fresh(w) && p < |w.processes| && q < |w.processes| && p != q
    requires !Blocked(w.durable, Some(f))
    requires forall e | e in {first, second} ::
      && e.content.fingerprint == f && e.content.reason == Some(ReplayReserved) && Refusal(w.durable, e).None?
    ensures w' == Moves(w, [Move(p, Gating(f)), Move(q, Gating(f)), Move(p, Reserve(first, Written))])
    ensures Overlooks(w', q, Reserve(second, Written)) && Blocked(w'.durable, Some(f))
  {
    ThreeMoves(w, Move(p, Gating(f)), Move(q, Gating(f)), Move(p, Reserve(first, Written)));
    w' := Moves(w, [Move(p, Gating(f)), Move(q, Gating(f)), Move(p, Reserve(first, Written))]);
    assert Holds(w', p, f);
    BlockedAfter(w.durable, first, Some(f));
  }

  // ---------------------------------------------------------------------------
  // One process alone
  // ---------------------------------------------------------------------------

  lemma InFlightIsHeld(w: World, step: Step)
    requires |w.processes| == 1
    ensures ReconcilesInFlight(View(w, 0), step) ==> ReconcilesHeld(w, 0, step)
  {
    if ReconcilesInFlight(View(w, 0), step) {
      assert Holds(w, 0, w.processes[0].phase.fingerprint);
    }
  }

  /** One process alone never overlooks anything: its own memory is enough. */
  lemma {:induction false} AloneIsCareful(w: World, moves: seq<Move>)
    requires Fresh(w) && |w.processes| == 1 && Possible(w, moves) && NoneReconcilesHeld(w, moves)
    ensures AllCareful(w, moves) && Inv(View(Moves(w, moves), 0))
  {
    if moves != [] {
      var n := |moves| - 1;
      AloneIsCareful(w, moves[..n]);
      var before, step := Moves(w, moves[..n]), moves[n].step;
      InFlightIsHeld(before, step);
      NextKeepsInv(View(before, 0), step);
    }
  }
}
