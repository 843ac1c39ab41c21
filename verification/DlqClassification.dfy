/** The fail-closed taxonomy of DLQ messages, from evidence in descending authority. */
module DlqClassification {
  import opened ReplayLedger

  datatype Evidence = Evidence(
    processedEventsActive: bool,
    upstream404Matched: bool,
    webhookReportsSuccess: bool,
    operationsSucceeded: bool,
    appendStarted: bool,
    missing: bool,
    malformed: bool,
    timedOut: bool,
    stale: bool,
    webhookValid: bool,
    exportEnabled: bool,
    stableKey: bool,
    noAppendProof: bool)
  {
    predicate Inconclusive() {
      appendStarted || missing || malformed || timedOut || stale
    }

    predicate Prerequisites() {
      webhookValid && exportEnabled && stableKey && noAppendProof
    }
  }

  function Classify(e: Evidence): Class {
    if e.processedEventsActive then AlreadyApplied
    else if e.upstream404Matched then TerminalUpstream404
    else if e.webhookReportsSuccess then UnknownAppendOutcome
    else if e.operationsSucceeded then UnknownAppendOutcome
    else if e.Inconclusive() then UnknownAppendOutcome
    else if e.Prerequisites() then ReplayCandidate
    else UnknownAppendOutcome
  }

  /** The second evidence is at least as much against a replay as the first. */
  predicate AtLeastAsAdverse(e: Evidence, worse: Evidence) {
    && (e.processedEventsActive ==> worse.processedEventsActive)
    && (e.upstream404Matched ==> worse.upstream404Matched)
    && (e.webhookReportsSuccess ==> worse.webhookReportsSuccess)
    && (e.operationsSucceeded ==> worse.operationsSucceeded)
    && (e.Inconclusive() ==> worse.Inconclusive())
    && (worse.Prerequisites() ==> e.Prerequisites())
  }

  datatype Action = TerminalCloseArchive | Quarantine | QuarantineManualReview | ApprovedDryRun | Replay

  /** The closed list of actions of each class. */
  function Allowed(c: Class): set<Action> {
    match c
    case AlreadyApplied => {TerminalCloseArchive}
    case TerminalUpstream404 => {Quarantine, TerminalCloseArchive}
    case UnknownAppendOutcome => {QuarantineManualReview}
    case ReplayCandidate => {ApprovedDryRun, Replay}
  }

  /**
   When each class applies: a message may be replayed exactly when no adverse evidence
   touches it and all four prerequisites are affirmed, and it is closed as applied or as
   terminal exactly on the evidence for that.
   */
  lemma ClassifiesIff(e: Evidence)
    ensures Replay in Allowed(Classify(e)) <==>
      && !e.processedEventsActive && !e.upstream404Matched && !e.webhookReportsSuccess && !e.operationsSucceeded
      && !e.appendStarted && !e.missing && !e.malformed && !e.timedOut && !e.stale
      && e.webhookValid && e.exportEnabled && e.stableKey && e.noAppendProof
    ensures Allowed(Classify(e)) == {TerminalCloseArchive} <==> e.processedEventsActive
    ensures Allowed(Classify(e)) == {Quarantine, TerminalCloseArchive} <==>
      e.upstream404Matched && !e.processedEventsActive
    ensures Replay !in Allowed(Classify(e)) && !e.processedEventsActive && !e.upstream404Matched ==>
      Allowed(Classify(e)) == {QuarantineManualReview}
  {
    assert Quarantine in {Quarantine, TerminalCloseArchive};
    assert Quarantine !in {TerminalCloseArchive} && QuarantineManualReview !in {TerminalCloseArchive};
    assert Replay in {ApprovedDryRun, Replay} && Replay !in {QuarantineManualReview};
    assert QuarantineManualReview in {QuarantineManualReview};
    assert QuarantineManualReview !in {Quarantine, TerminalCloseArchive};
  }

  /**
   Worse evidence never makes a message replayable, a message that some adverse evidence
   touches is never replayable, and no class may be both replayed and quarantined.
   */
  lemma ReplayFailsClosed(e: Evidence, worse: Evidence)
    requires AtLeastAsAdverse(e, worse)
    ensures Replay in Allowed(Classify(worse)) ==> Replay in Allowed(Classify(e))
    ensures Replay in Allowed(Classify(e)) ==>
      !e.webhookReportsSuccess && !e.operationsSucceeded && !e.processedEventsActive && !e.Inconclusive()
        && e.noAppendProof
    ensures Quarantines(Classify(e)) <==> Allowed(Classify(e)) * {Quarantine, QuarantineManualReview} != {}
    ensures Replay in Allowed(Classify(e)) ==> !Quarantines(Classify(e))
  {
    assert Quarantine in Allowed(TerminalUpstream404) * {Quarantine, QuarantineManualReview};
    assert QuarantineManualReview in Allowed(UnknownAppendOutcome) * {Quarantine, QuarantineManualReview};
  }
}
