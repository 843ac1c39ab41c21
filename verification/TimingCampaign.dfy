/**
 Acceptance of a timing campaign from a list of scheduled runs, and its agreement with
 the durable record kept by `CampaignState`.
 */
module TimingCampaign {
  import opened Prelude
  import NearestRank
  import C = CampaignState

  const MAX_SOURCE_PHYSICAL_ATTEMPTS: nat := 208

  datatype Run = Run(
    campaignId: string,
    fingerprints: C.Fingerprints,
    succeeded: bool,
    duration: real,
    physicalAttempts: nat)
  {
    predicate WithinLimits() {
      succeeded && duration < C.HARD_LIMIT && physicalAttempts <= MAX_SOURCE_PHYSICAL_ATTEMPTS
    }
  }

  datatype Reason =
    | CampaignDisqualified
    | HardBudgetExceeded
    | SourceBudgetExceeded
    | CampaignIncomplete
    | P95BudgetExceeded
    | Accepted

  datatype Verdict = Verdict(accepted: bool, consecutiveRuns: nat, p95: Option<real>, reason: Reason)

  /** Where the longest suffix of runs with the last run's campaign ID begins. */
  function BlockStart(runs: seq<Run>): (cut: nat)
    requires runs != []
    ensures cut < |runs|
  {
    var n := |runs|;
    if n > 1 && runs[n - 2].campaignId == runs[n - 1].campaignId then BlockStart(runs[..n - 1]) else n - 1
  }

  function TrailingBlock(runs: seq<Run>): seq<Run> {
    if runs == [] then [] else runs[BlockStart(runs)..]
  }

  /** Every run within limits and under one fingerprint pair. */
  predicate Clean(block: seq<Run>) {
    forall i | 0 <= i < |block| :: block[i].WithinLimits() && block[i].fingerprints == block[0].fingerprints
  }

  function Durations(runs: seq<Run>): (d: seq<real>)
    ensures |d| == |runs|
    ensures forall i | 0 <= i < |d| :: d[i] == runs[i].duration
  {
    seq(|runs|, i requires 0 <= i < |runs| => runs[i].duration)
  }

  /** The reason given for the first run that disqualifies a block. */
  function FirstFault(block: seq<Run>): Reason
    requires !Clean(block)
    decreases |block|
  {
    var n := |block|;
    if !Clean(block[..n - 1]) then FirstFault(block[..n - 1])
    else if block[n - 1].duration >= C.HARD_LIMIT then HardBudgetExceeded
    else if block[n - 1].physicalAttempts > MAX_SOURCE_PHYSICAL_ATTEMPTS then SourceBudgetExceeded
    else CampaignDisqualified
  }

  /** The block is all one campaign, and the run before it is not of that campaign. */
  lemma {:induction false} TrailingBlockIsMaximal(runs: seq<Run>)
    requires runs != []
    ensures var cut := BlockStart(runs);
      && (forall i | cut <= i < |runs| :: runs[i].campaignId == runs[|runs| - 1].campaignId)
      && (cut > 0 ==> runs[cut - 1].campaignId != runs[|runs| - 1].campaignId)
  {
    var n := |runs|;
    if n > 1 && runs[n - 2].campaignId == runs[n - 1].campaignId {
      TrailingBlockIsMaximal(runs[..n - 1]);
    }
  }

  /** A run that counts: it succeeded, in under 180 seconds and at most 208 attempts at the source. */
  ghost predicate Counts(run: Run) {
    run.succeeded && run.duration < 180.0 && run.physicalAttempts <= 208
  }

  /**
   What acceptance means, in terms of the trailing block alone: twenty runs or more, all of
   which count, under one pair of fingerprints, and at most one of the last twenty took 150
   seconds or longer.
   */
  ghost predicate Acceptable(runs: seq<Run>) {
    var block := TrailingBlock(runs);
    && |block| >= 20
    && (forall i | 0 <= i < |block| :: Counts(block[i]) && block[i].fingerprints == block[0].fingerprints)
    && NearestRank.CountBelow(Durations(block[|block| - 20..]), 150.0) >= 19
  }

  /** The verdict a trailing block deserves. */
  function Judged(block: seq<Run>): Verdict {
    if !Clean(block) then Verdict(false, 0, None, FirstFault(block))
    else if |block| < C.WINDOW then Verdict(false, |block|, None, CampaignIncomplete)
    else
      var p95 := NearestRank.P95(Durations(block[|block| - C.WINDOW..]));
      if p95 < C.P95_LIMIT then Verdict(true, C.WINDOW, Some(p95), Accepted)
      else Verdict(false, C.WINDOW, Some(p95), P95BudgetExceeded)
  }

  lemma {:induction false} FaultIsNotAcceptance(block: seq<Run>)
    requires !Clean(block)
    ensures FirstFault(block) in {CampaignDisqualified, HardBudgetExceeded, SourceBudgetExceeded}
    decreases |block|
  {
    if !Clean(block[..|block| - 1]) {
      FaultIsNotAcceptance(block[..|block| - 1]);
    }
  }

  /** How one more run of the same campaign changes the standing of its block. */
  lemma OneMoreRun(block: seq<Run>, run: Run)
    ensures Clean(block + [run])
       <==> Clean(block) && run.WithinLimits() && (block != [] ==> run.fingerprints == block[0].fingerprints)
    ensures !Clean(block) ==> FirstFault(block + [run]) == FirstFault(block)
    ensures Clean(block) && !Clean(block + [run]) ==>
        FirstFault(block + [run]) ==
          if run.duration >= C.HARD_LIMIT then HardBudgetExceeded
          else if run.physicalAttempts > MAX_SOURCE_PHYSICAL_ATTEMPTS then SourceBudgetExceeded
          else CampaignDisqualified
  {
    var more := block + [run];
    assert more[..|block|] == block && more[|block|] == run;
    if Clean(more) {
      assert forall i | 0 <= i < |block| :: block[i] == more[i];
    }
  }

  lemma BlockOfExtension(runs: seq<Run>, run: Run)
    ensures TrailingBlock(runs + [run]) ==
        (if runs != [] && runs[|runs| - 1].campaignId == run.campaignId then TrailingBlock(runs) else []) + [run]
  {
    assert (runs + [run])[..|runs|] == runs;
    if runs != [] {
      assert (runs + [run])[BlockStart(runs)..] == runs[BlockStart(runs)..] + [run];
    }
  }

  /** The resetting scan: the runs of the campaign still standing, or why it fell. */
  method Scan(samples: seq<Run>) returns (campaign: seq<Run>, disqualified: bool, reason: Reason)
    ensures disqualified <==> !Clean(TrailingBlock(samples))
    ensures disqualified ==> reason == FirstFault(TrailingBlock(samples))
    ensures !disqualified ==> campaign == TrailingBlock(samples)
  {
    campaign, disqualified, reason := [], false, CampaignDisqualified;
    var campaignId: Option<string> := None;
    var fingerprint: Option<C.Fingerprints> := None;
    ghost var block: seq<Run> := [];
    for i := 0 to |samples|
      invariant block == TrailingBlock(samples[..i])
      invariant campaignId == if i == 0 then None else Some(samples[i - 1].campaignId)
      invariant disqualified <==> !Clean(block)
      invariant reason == if disqualified then FirstFault(block) else CampaignDisqualified
      invariant !disqualified ==> campaign == block
      invariant !disqualified ==> fingerprint == if block == [] then None else Some(block[0].fingerprints)
    {
      var sample := samples[i];
      assert samples[..i + 1] == samples[..i] + [sample];
      BlockOfExtension(samples[..i], sample);
      if Some(sample.campaignId) != campaignId {
        campaignId := Some(sample.campaignId);
        campaign := [];
        disqualified := false;
        reason := CampaignDisqualified;
        fingerprint := None;
        block := [];
      }
      OneMoreRun(block, sample);
      block := block + [sample];
      if disqualified {
        continue;
      }
      if !sample.WithinLimits() {
        campaign := [];
        disqualified := true;
        if sample.duration >= C.HARD_LIMIT {
          reason := HardBudgetExceeded;
        } else if sample.physicalAttempts > MAX_SOURCE_PHYSICAL_ATTEMPTS {
          reason := SourceBudgetExceeded;
        }
        continue;
      }
      if fingerprint.Some? && fingerprint.value != sample.fingerprints {
        campaign := [];
        disqualified := true;
        continue;
      }
      fingerprint := Some(sample.fingerprints);
      campaign := campaign + [sample];
    }
    assert samples[..|samples|] == samples;
  }

  lemma AcceptedIffAcceptable(samples: seq<Run>)
    ensures Judged(TrailingBlock(samples)).accepted <==> Acceptable(samples)
  {
    var block := TrailingBlock(samples);
    if |block| >= 20 {
      NearestRank.TwentyRunsAllowOneSlow(Durations(block[|block| - 20..]), 150.0);
    }
    assert Clean(block) <==>
      forall i | 0 <= i < |block| :: Counts(block[i]) && block[i].fingerprints == block[0].fingerprints;
  }

  lemma CleanRunsAreBelowTheLimit(block: seq<Run>, k: nat)
    requires Clean(block) && k <= |block|
    ensures forall d | d in Durations(block[k..]) :: d < C.HARD_LIMIT
  {
    assert forall i | k <= i < |block| :: block[i].WithinLimits();
  }

  method EvaluateTimingCampaign(samples: seq<Run>) returns (v: Verdict)
    ensures v == Judged(TrailingBlock(samples))
  {
    var campaign, disqualified, reason := Scan(samples);
    if disqualified {
      FaultIsNotAcceptance(TrailingBlock(samples));
      return Verdict(false, 0, None, reason);
    }
    if |campaign| < C.WINDOW {
      return Verdict(false, |campaign|, None, CampaignIncomplete);
    }
    var durations := Durations(campaign[|campaign| - C.WINDOW..]);
    var p95 := NearestRank.P95(durations);
    CleanRunsAreBelowTheLimit(campaign, |campaign| - C.WINDOW);
    if exists d | d in durations :: d >= C.HARD_LIMIT {
      return Verdict(false, C.WINDOW, Some(p95), HardBudgetExceeded);
    }
    if p95 >= C.P95_LIMIT {
      return Verdict(false, C.WINDOW, Some(p95), P95BudgetExceeded);
    }
    v := Verdict(true, C.WINDOW, Some(p95), Accepted);
  }

  // ---------------------------------------------------------------------------
  // Agreement with the durable record
  // ---------------------------------------------------------------------------

  /** Run IDs for the first k runs: none at all, or one distinct ID each. */
  ghost predicate RunIdsFor(runIds: Option<seq<string>>, n: nat) {
    runIds.Some? ==> |runIds.value| >= n && C.Distinct(runIds.value)
  }

  /** The evidence the scheduler records for one run: over-limit runs are failures. */
  function Evidence(run: Run, runId: Option<string>): C.Sample {
    C.Sample(run.campaignId, run.WithinLimits(), false, run.duration, run.fingerprints, runId)
  }

  function AllEvidence(runs: seq<Run>, runIds: Option<seq<string>>): (s: seq<C.Sample>)
    requires RunIdsFor(runIds, |runs|)
    ensures |s| == |runs|
  {
    seq(|runs|, i requires 0 <= i < |runs| =>
      Evidence(runs[i], if runIds.Some? then Some(runIds.value[i]) else None))
  }

  predicate OneCampaign(runs: seq<Run>, id: string) {
    forall i | 0 <= i < |runs| :: runs[i].campaignId == id
  }

  lemma {:induction false} OneCampaignIsItsBlock(runs: seq<Run>, id: string)
    requires OneCampaign(runs, id)
    ensures TrailingBlock(runs) == runs
  {
    if |runs| > 1 {
      OneCampaignIsItsBlock(runs[..|runs| - 1], id);
    }
  }

  /** The entry that a clean, unfinished campaign has on file. */
  function OnFile(runs: seq<Run>, runIds: Option<seq<string>>): C.Campaign
    requires runs != [] && RunIdsFor(runIds, |runs|)
  {
    C.Campaign(runs[0].fingerprints, Durations(runs), if runIds.Some? then Some(runIds.value[..|runs|]) else None)
  }

  /**
   What the file holds after the runs of a campaign it had never seen: the clean runs, or
   a disqualified ID. Nothing else on file has moved.
   */
  ghost predicate Tracks(doc: C.Document, doc': C.Document, runs: seq<Run>, runIds: Option<seq<string>>, id: string)
    requires RunIdsFor(runIds, |runs|)
  {
    && doc'.accepted == doc.accepted
    && if Clean(runs) then
         && doc'.disqualified == doc.disqualified
         && doc'.campaigns == if runs == [] then doc.campaigns else doc.campaigns[id := OnFile(runs, runIds)]
       else
         && doc'.disqualified == doc.disqualified + {id}
         && doc'.campaigns == doc.campaigns
  }

  ghost predicate NewCampaign(doc: C.Document, runs: seq<Run>, runIds: Option<seq<string>>, id: string) {
    && C.Inv(doc) && C.Loads(doc)
    && id !in doc.campaigns && id !in doc.disqualified
    && OneCampaign(runs, id) && RunIdsFor(runIds, |runs|)
  }

  lemma {:induction false} RecordedSoFar(doc: C.Document, runs: seq<Run>, runIds: Option<seq<string>>, id: string)
    requires NewCampaign(doc, runs, runIds, id) && |runs| < C.WINDOW
    decreases |runs|, 1
    ensures var doc' := C.RecordedAll(doc, AllEvidence(runs, runIds));
      C.Inv(doc') && C.Loads(doc') && Tracks(doc, doc', runs, runIds, id)
  {
    var n := |runs|;
    if n > 0 {
      var before, s := BeforeLast(doc, runs, runIds, id);
      if Clean(runs) {
        CleanRun(doc, before, runs, runIds, id);
        assert C.Recorded(before, s).0 == C.Added(before, s);
      } else {
        FaultyRun(doc, before, runs, runIds, id);
      }
    }
  }

  /** The file before the last run, and that run's evidence. */
  lemma BeforeLast(doc: C.Document, runs: seq<Run>, runIds: Option<seq<string>>, id: string)
    returns (before: C.Document, s: C.Sample)
    requires NewCampaign(doc, runs, runIds, id) && 0 < |runs| <= C.WINDOW
    ensures s == AllEvidence(runs, runIds)[|runs| - 1]
    ensures C.Inv(before) && C.Loads(before) && Tracks(doc, before, runs[..|runs| - 1], runIds, id)
    ensures C.RecordedAll(doc, AllEvidence(runs, runIds)) == C.Recorded(before, s).0
    ensures C.Inv(C.Recorded(before, s).0) && C.Loads(C.Recorded(before, s).0)
    decreases |runs|, 0
  {
    var front := runs[..|runs| - 1];
    RecordedSoFar(doc, front, runIds, id);
    before := C.RecordedAll(doc, AllEvidence(front, runIds));
    s := AllEvidence(runs, runIds)[|runs| - 1];
    assert AllEvidence(runs, runIds)[..|runs| - 1] == AllEvidence(front, runIds);
    C.RecordKeepsInv(before, s);
    C.LoadsUnlessOverflow(before, s);
  }

  lemma CleanRun(doc: C.Document, before: C.Document, runs: seq<Run>, runIds: Option<seq<string>>, id: string)
    requires NewCampaign(doc, runs, runIds, id) && 0 < |runs| <= C.WINDOW && Clean(runs)
    requires C.Inv(before) && C.Loads(before) && Tracks(doc, before, runs[..|runs| - 1], runIds, id)
    ensures var s := AllEvidence(runs, runIds)[|runs| - 1];
      && C.Decide(before, s).Add?
      && C.Extended(C.Entry(before, s), s) == OnFile(runs, runIds)
      && before.campaigns[id := OnFile(runs, runIds)] == doc.campaigns[id := OnFile(runs, runIds)]
  {
    var n := |runs|;
    var front := runs[..n - 1];
    var s := AllEvidence(runs, runIds)[n - 1];
    assert runs == front + [runs[n - 1]];
    OneMoreRun(front, runs[n - 1]);
    assert Durations(runs) == Durations(front) + [s.duration];
    if runIds.Some? {
      assert runIds.value[..n] == runIds.value[..n - 1] + [runIds.value[n - 1]];
    }
    var c := C.Entry(before, s);
    assert front != [] ==> c == OnFile(front, runIds);
    assert front == [] ==> c == C.Campaign(s.fingerprints, [], None);
    assert doc.accepted != Some(id);
  }

  /** A run that breaks its block, or any run after one that did: the ID stays off the file. */
  lemma FaultyRun(doc: C.Document, before: C.Document, runs: seq<Run>, runIds: Option<seq<string>>, id: string)
    requires NewCampaign(doc, runs, runIds, id) && 0 < |runs| <= C.WINDOW && !Clean(runs)
    requires C.Inv(before) && C.Loads(before) && Tracks(doc, before, runs[..|runs| - 1], runIds, id)
    ensures Tracks(doc, C.Recorded(before, AllEvidence(runs, runIds)[|runs| - 1]).0, runs, runIds, id)
  {
    var n := |runs|;
    var front, run := runs[..n - 1], runs[n - 1];
    var s := AllEvidence(runs, runIds)[n - 1];
    assert runs == front + [run];
    OneMoreRun(front, run);
    assert before.campaigns - {id} == doc.campaigns;
    FaultySample(before, s, id);
  }

  lemma FaultySample(before: C.Document, s: C.Sample, id: string)
    requires C.Inv(before) && C.Loads(before) && s.campaignId == id && before.accepted != Some(id)
    requires id in before.disqualified || s.Fails()
          || (id in before.campaigns && before.campaigns[id].fingerprints != s.fingerprints)
    ensures var doc' := C.Recorded(before, s).0;
      && doc'.disqualified == before.disqualified + {id}
      && doc'.campaigns == before.campaigns - {id}
      && doc'.accepted == before.accepted
  {
    assert id in before.disqualified ==> before.campaigns - {id} == before.campaigns;
  }

  /**
   Twenty clean runs of a new campaign below the p95 limit make it the accepted one and
   leave every other campaign's entry as it was.
   */
  lemma TwentyCleanRuns(doc: C.Document, runs: seq<Run>, runIds: Option<seq<string>>, id: string)
    requires NewCampaign(doc, runs, runIds, id) && |runs| == C.WINDOW && Clean(runs)
    ensures var doc' := C.RecordedAll(doc, AllEvidence(runs, runIds));
      && C.Inv(doc') && C.Loads(doc')
      && if NearestRank.P95(Durations(runs)) < C.P95_LIMIT then
           && doc'.accepted == Some(id)
           && doc'.disqualified == doc.disqualified
           && doc'.campaigns == doc.campaigns[id := OnFile(runs, runIds)]
         else doc'.accepted.None?
  {
    var before, s := BeforeLast(doc, runs, runIds, id);
    CleanRun(doc, before, runs, runIds, id);
    assert C.Recorded(before, s).0 == C.Added(before, s);
  }

  lemma VerdictMatchesRecord(runs: seq<Run>, runIds: Option<seq<string>>, id: string)
    requires OneCampaign(runs, id) && RunIdsFor(runIds, |runs|) && |runs| <= C.WINDOW
    ensures Judged(TrailingBlock(runs)).accepted
       <==> C.RecordedAll(C.EMPTY, AllEvidence(runs, runIds)).accepted == Some(id)
  {
    OneCampaignIsItsBlock(runs, id);
    if |runs| < C.WINDOW {
      RecordedSoFar(C.EMPTY, runs, runIds, id);
    } else if Clean(runs) {
      assert runs[|runs| - C.WINDOW..] == runs;
      TwentyCleanRuns(C.EMPTY, runs, runIds, id);
    } else {
      var before, s := BeforeLast(C.EMPTY, runs, runIds, id);
      FaultyRun(C.EMPTY, before, runs, runIds, id);
    }
  }

  /**
   For one campaign of at most 20 runs the two implementations agree: evaluating the list
   accepts it exactly when recording the runs one by one into an empty file does.
   */
  lemma EvaluationMatchesRecord(runs: seq<Run>, runIds: Option<seq<string>>, id: string)
    requires OneCampaign(runs, id) && RunIdsFor(runIds, |runs|) && |runs| <= 20
    ensures Acceptable(runs) <==> C.RecordedAll(C.EMPTY, AllEvidence(runs, runIds)).accepted == Some(id)
  {
    AcceptedIffAcceptable(runs);
    VerdictMatchesRecord(runs, runIds, id);
  }

  /**
   The file can be broken by clean evidence alone: campaign `a` is accepted, campaign `b`
   is accepted after it, and one more run of `a` writes a file that no longer loads.
   */
  lemma DisplacedCampaignBreaksTheFile(a: seq<Run>, b: seq<Run>, aIds: seq<string>, bIds: seq<string>)
    requires |a| == |b| == C.WINDOW && Clean(a) && Clean(b)
    requires NearestRank.P95(Durations(a)) < C.P95_LIMIT && NearestRank.P95(Durations(b)) < C.P95_LIMIT
    requires OneCampaign(a, a[0].campaignId) && OneCampaign(b, b[0].campaignId)
    requires a[0].campaignId != b[0].campaignId
    requires RunIdsFor(Some(aIds), C.WINDOW + 1) && RunIdsFor(Some(bIds), C.WINDOW)
    ensures var accepted := C.RecordedAll(C.EMPTY, AllEvidence(a, Some(aIds)));
      var displaced := C.RecordedAll(accepted, AllEvidence(b, Some(bIds)));
      && accepted.accepted == Some(a[0].campaignId)
      && displaced.accepted == Some(b[0].campaignId)
      && C.Loads(displaced)
      && !C.Loads(C.Recorded(displaced, Evidence(a[0], Some(aIds[C.WINDOW]))).0)
  {
    TwentyCleanRuns(C.EMPTY, a, Some(aIds), a[0].campaignId);
    var accepted := C.RecordedAll(C.EMPTY, AllEvidence(a, Some(aIds)));
    TwentyCleanRuns(accepted, b, Some(bIds), b[0].campaignId);
    var displaced := C.RecordedAll(accepted, AllEvidence(b, Some(bIds)));
    assert displaced.campaigns[a[0].campaignId] == OnFile(a, Some(aIds));
    C.LoadsUnlessOverflow(displaced, Evidence(a[0], Some(aIds[C.WINDOW])));
  }
}
