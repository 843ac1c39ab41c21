/**
 The durable record of the timing campaigns: which campaign IDs are disqualified for
 good, which one is accepted, and the durations (with their run IDs) seen so far.
 */
module CampaignState {
  import opened Prelude
  import NearestRank

  const WINDOW: nat := 20
  const P95_LIMIT := 150.0
  const HARD_LIMIT := 180.0

  datatype Error =
    | PermanentlyDisqualified
    | DriftRefused
    | DriftDisqualified
    | NewCampaignRequired
    | RunIdRequired
    | SchemaInvalid
    | NotAccepted
    | OtherCampaign
    | StateMissing
    | FingerprintMismatch

  datatype Fingerprints = Fingerprints(source: string, readModel: string)

  datatype Campaign = Campaign(fingerprints: Fingerprints, durations: seq<real>, runIds: Option<seq<string>>)

  datatype Document = Document(
    schemaVersion: nat,
    disqualified: set<string>,
    accepted: Option<string>,
    campaigns: map<string, Campaign>)

  datatype Sample = Sample(
    campaignId: string,
    success: bool,
    disqualified: bool,
    duration: real,
    fingerprints: Fingerprints,
    runId: Option<string>)
  {
    predicate Fails() {
      disqualified || !success
    }
  }

  /** What the store reads when no file exists yet. */
  const EMPTY := Document(1, {}, None, map[])

  predicate Distinct(s: seq<string>) {
    forall i, j | 0 <= i < j < |s| :: s[i] != s[j]
  }

  predicate RunIdsLoad(c: Campaign) {
    c.runIds.Some? ==>
      && |c.runIds.value| == |c.durations|
      && |c.runIds.value| <= WINDOW
      && Distinct(c.runIds.value)
  }

  /** The schema checks every read of the file makes. */
  predicate Loads(doc: Document) {
    && doc.schemaVersion in {1, 2}
    && (doc.schemaVersion == 2 ==> forall id | id in doc.campaigns :: RunIdsLoad(doc.campaigns[id]))
  }

  function Last(s: seq<real>, n: nat): seq<real> {
    if |s| <= n then s else s[|s| - n..]
  }

  /** The campaign entry a clean sample is added to. */
  function Entry(doc: Document, s: Sample): Campaign {
    if s.campaignId in doc.campaigns then doc.campaigns[s.campaignId]
    else Campaign(s.fingerprints, [], None)
  }

  /** The entry once the sample is in it. */
  function Extended(c: Campaign, s: Sample): Campaign {
    if s.runId.Some? then
      c.(durations := c.durations + [s.duration],
         runIds := Some((if c.runIds.Some? then c.runIds.value else []) + [s.runId.value]))
    else
      c.(durations := Last(c.durations + [s.duration], WINDOW))
  }

  function Disqualify(doc: Document, id: string, accepted: Option<string>): Document {
    doc.(disqualified := doc.disqualified + {id}, accepted := accepted, campaigns := doc.campaigns - {id})
  }

  /** The document after adding a clean sample that no earlier branch turned away. */
  function Added(doc: Document, s: Sample): Document {
    var c := Extended(Entry(doc, s), s);
    var doc' := doc.(schemaVersion := if s.runId.Some? then 2 else doc.schemaVersion,
                     campaigns := doc.campaigns[s.campaignId := c]);
    if |c.durations| != WINDOW then doc'
    else if NearestRank.P95(c.durations) >= P95_LIMIT then Disqualify(doc', s.campaignId, None)
    else doc'.(accepted := Some(s.campaignId))
  }

  /** The write, then the read back that every successful record ends with. */
  function Written(doc: Document): (Document, Result<Document, Error>) {
    (doc, if Loads(doc) then Success(doc) else Failure(SchemaInvalid))
  }

  /** Which branch one sample takes. */
  datatype Disposition = Refuse(error: Error) | Keep | Fail | Drift | Add

  function Decide(doc: Document, s: Sample): Disposition {
    var id := s.campaignId;
    var c := Entry(doc, s);
    if !Loads(doc) then Refuse(SchemaInvalid)
    else if id in doc.disqualified && !s.Fails() then Refuse(PermanentlyDisqualified)
    else if s.Fails() then Fail
    else if c.fingerprints != s.fingerprints then
      if doc.accepted == Some(id) then Refuse(DriftRefused) else Drift
    else if s.runId.Some? && c.durations != [] && c.runIds.None? then Refuse(NewCampaignRequired)
    else if doc.accepted == Some(id) then Keep
    else if s.runId.Some? && c.runIds.Some? && s.runId.value in c.runIds.value then Keep
    else if s.runId.None? && c.runIds.Some? then Refuse(RunIdRequired)
    else Add
  }

  /** The file after one record and what the caller gets. */
  function Recorded(doc: Document, s: Sample): (Document, Result<Document, Error>) {
    var id := s.campaignId;
    match Decide(doc, s)
    case Refuse(error) => (doc, Failure(error))
    case Keep => (doc, Success(doc))
    case Fail => Written(Disqualify(doc, id, if doc.accepted == Some(id) then None else doc.accepted))
    case Drift => (Disqualify(doc, id, doc.accepted), Failure(DriftDisqualified))
    case Add => Written(Added(doc, s))
  }

  function RecordedAll(doc: Document, samples: seq<Sample>): Document {
    if samples == [] then doc
    else Recorded(RecordedAll(doc, samples[..|samples| - 1]), samples[|samples| - 1]).0
  }

  class CampaignStateStore {
    var document: Document

    constructor ()
      ensures document == EMPTY
    {
      document := EMPTY;
    }

    method Record(sample: Sample) returns (r: Result<Document, Error>)
      modifies this
      ensures (document, r) == Recorded(old(document), sample)
    {
      if !Loads(document) {
        return Failure(SchemaInvalid);
      }
      var draft := document;
      var id := sample.campaignId;
      var drifted := false;
      if id in draft.disqualified && !sample.Fails() {
        return Failure(PermanentlyDisqualified);
      }
      var disqualified := draft.disqualified;
      var campaigns := draft.campaigns;
      if sample.Fails() {
        disqualified := disqualified + {id};
        campaigns := campaigns - {id};
        if draft.accepted == Some(id) {
          draft := draft.(accepted := None);
        }
      } else {
        var campaign := if id in campaigns then campaigns[id] else Campaign(sample.fingerprints, [], None);
        if campaign.fingerprints != sample.fingerprints {
          if draft.accepted == Some(id) {
            return Failure(DriftRefused);
          }
          disqualified := disqualified + {id};
          campaigns := campaigns - {id};
          drifted := true;
        } else {
          if sample.runId.Some? && campaign.durations != [] && campaign.runIds.None? {
            return Failure(NewCampaignRequired);
          }
          if draft.accepted == Some(id) {
            return Success(document);
          }
          if sample.runId.Some? {
            var runIds := if campaign.runIds.Some? then campaign.runIds.value else [];
            if sample.runId.value in runIds {
              return Success(document);
            }
            campaign := campaign.(runIds := Some(runIds + [sample.runId.value]));
            draft := draft.(schemaVersion := 2);
          } else if campaign.runIds.Some? {
            return Failure(RunIdRequired);
          }
          var durations := campaign.durations + [sample.duration];
          campaign := campaign.(durations := if sample.runId.Some? then durations else Last(durations, WINDOW));
          campaigns := campaigns[id := campaign];
          if |campaign.durations| == WINDOW {
            if NearestRank.P95(campaign.durations) >= P95_LIMIT {
              disqualified := disqualified + {id};
              campaigns := campaigns - {id};
              draft := draft.(accepted := None);
            } else {
              draft := draft.(accepted := Some(id));
            }
          }
        }
      }
      document := draft.(disqualified := disqualified, campaigns := campaigns);
      if drifted {
        return Failure(DriftDisqualified);
      }
      r := if Loads(document) then Success(document) else Failure(SchemaInvalid);
    }
  }

  datatype AcceptedCampaign = AcceptedCampaign(
    campaignId: string,
    sampleCount: nat,
    p95: real,
    fingerprints: Fingerprints)

  /** The gate a release passes before it may rely on a campaign. */
  function RequireAccepted(doc: Document, id: string, fingerprints: Fingerprints): Result<AcceptedCampaign, Error> {
    if !Loads(doc) then Failure(SchemaInvalid)
    else if doc.accepted.None? || doc.accepted.value in doc.disqualified then Failure(NotAccepted)
    else if doc.accepted.value != id then Failure(OtherCampaign)
    else if id !in doc.campaigns then Failure(StateMissing)
    else
      var c := doc.campaigns[id];
      if |c.durations| != WINDOW then Failure(NotAccepted)
      else if c.runIds.Some? && (|c.runIds.value| != WINDOW || !Distinct(c.runIds.value)) then Failure(NotAccepted)
      else if c.fingerprints != fingerprints then Failure(FingerprintMismatch)
      else
        var p95 := NearestRank.P95(c.durations);
        if p95 >= P95_LIMIT || exists d | d in c.durations :: d >= HARD_LIMIT then Failure(NotAccepted)
        else Success(AcceptedCampaign(id, |c.durations|, p95, fingerprints))
  }

  // ---------------------------------------------------------------------------
  // What every reachable document keeps
  // ---------------------------------------------------------------------------

  ghost predicate CampaignInv(c: Campaign) {
    && c.durations != []
    && (c.runIds.None? ==> |c.durations| <= WINDOW)
    && (c.runIds.Some? ==> |c.runIds.value| == |c.durations| && Distinct(c.runIds.value))
  }

  ghost predicate Inv(doc: Document) {
    && doc.schemaVersion in {1, 2}
    && doc.disqualified !! doc.campaigns.Keys
    && (forall id | id in doc.campaigns :: CampaignInv(doc.campaigns[id]))
    && (forall id | id in doc.campaigns && doc.campaigns[id].runIds.Some? :: doc.schemaVersion == 2)
    && (doc.accepted.Some? ==>
          && doc.accepted.value in doc.campaigns
          && |doc.campaigns[doc.accepted.value].durations| == 20
          && NearestRank.P95(doc.campaigns[doc.accepted.value].durations) < 150.0)
  }

  lemma ExtendedKeepsInv(doc: Document, s: Sample)
    requires Inv(doc) && Decide(doc, s).Add?
    ensures CampaignInv(Extended(Entry(doc, s), s))
  {
    assert s.campaignId in doc.campaigns ==> CampaignInv(doc.campaigns[s.campaignId]);
  }

  lemma DisqualifyKeepsInv(doc: Document, id: string, accepted: Option<string>)
    requires Inv(doc.(accepted := accepted))
    requires accepted != Some(id)
    ensures Inv(Disqualify(doc, id, accepted))
  {
  }

  lemma AddedKeepsInv(doc: Document, s: Sample)
    requires Inv(doc) && Decide(doc, s).Add?
    ensures Inv(Added(doc, s))
  {
    var c := Extended(Entry(doc, s), s);
    var doc' := doc.(schemaVersion := if s.runId.Some? then 2 else doc.schemaVersion,
                     campaigns := doc.campaigns[s.campaignId := c]);
    ExtendedKeepsInv(doc, s);
    forall id | id in doc'.campaigns
      ensures CampaignInv(doc'.campaigns[id])
      ensures doc'.campaigns[id].runIds.Some? ==> doc'.schemaVersion == 2
    {
      if id != s.campaignId {
        assert doc'.campaigns[id] == doc.campaigns[id];
      }
    }
    assert Inv(doc');
    if |c.durations| == WINDOW && NearestRank.P95(c.durations) >= P95_LIMIT {
      DisqualifyKeepsInv(doc', s.campaignId, None);
    }
  }

  /** One record keeps the invariant; a disqualification is never taken back. */
  lemma RecordKeepsInv(doc: Document, s: Sample)
    requires Inv(doc)
    ensures Inv(Recorded(doc, s).0)
    ensures doc.disqualified <= Recorded(doc, s).0.disqualified
  {
    match Decide(doc, s)
    case Refuse(_) =>
    case Keep =>
    case Fail =>
      DisqualifyKeepsInv(doc, s.campaignId, if doc.accepted == Some(s.campaignId) then None else doc.accepted);
    case Drift => DisqualifyKeepsInv(doc, s.campaignId, doc.accepted);
    case Add => AddedKeepsInv(doc, s);
  }

  lemma {:induction false} RunsKeepInv(samples: seq<Sample>, k: nat)
    requires k <= |samples|
    ensures Inv(RecordedAll(EMPTY, samples))
    ensures RecordedAll(EMPTY, samples[..k]).disqualified <= RecordedAll(EMPTY, samples).disqualified
  {
    if k == |samples| {
      assert samples[..k] == samples;
      if samples != [] {
        RunsKeepInv(samples[..k - 1], k - 1);
        RecordKeepsInv(RecordedAll(EMPTY, samples[..k - 1]), samples[k - 1]);
      }
    } else {
      var front := samples[..|samples| - 1];
      assert front[..k] == samples[..k];
      RunsKeepInv(front, k);
      RecordKeepsInv(RecordedAll(EMPTY, front), samples[|samples| - 1]);
    }
  }

  /** A fresh run ID for a full campaign that is not the accepted one. */
  predicate Overflows(doc: Document, s: Sample) {
    Decide(doc, s).Add? && s.runId.Some? && |Entry(doc, s).durations| == WINDOW
  }

  /** The file can be read again after a record exactly when the record does not overflow. */
  lemma LoadsUnlessOverflow(doc: Document, s: Sample)
    requires Inv(doc) && Loads(doc)
    ensures Loads(Recorded(doc, s).0) <==> !Overflows(doc, s)
  {
    RecordKeepsInv(doc, s);
    AllShort(doc);
    if Overflows(doc, s) {
      OverflowDoesNotLoad(doc, s);
    } else {
      StaysShort(doc, s);
      ShortLoads(Recorded(doc, s).0);
    }
  }

  lemma OverflowDoesNotLoad(doc: Document, s: Sample)
    requires Inv(doc) && Overflows(doc, s)
    ensures !Loads(Added(doc, s))
  {
    assert Added(doc, s).campaigns[s.campaignId] == Extended(Entry(doc, s), s);
    assert !RunIdsLoad(Extended(Entry(doc, s), s));
  }

  lemma StaysShort(doc: Document, s: Sample)
    requires forall id | id in doc.campaigns :: |doc.campaigns[id].durations| <= WINDOW
    requires !Overflows(doc, s)
    ensures var doc' := Recorded(doc, s).0;
      forall id | id in doc'.campaigns :: |doc'.campaigns[id].durations| <= WINDOW
  {
    var doc' := Recorded(doc, s).0;
    forall id | id in doc'.campaigns ensures |doc'.campaigns[id].durations| <= WINDOW {
      if Decide(doc, s).Add? && id == s.campaignId {
        assert doc'.campaigns[id] == Extended(Entry(doc, s), s);
      } else {
        assert doc'.campaigns[id] == doc.campaigns[id];
      }
    }
  }

  lemma AllShort(doc: Document)
    requires Inv(doc) && Loads(doc)
    ensures forall id | id in doc.campaigns :: |doc.campaigns[id].durations| <= WINDOW
  {
    forall id | id in doc.campaigns ensures |doc.campaigns[id].durations| <= WINDOW {
      assert CampaignInv(doc.campaigns[id]);
      assert doc.campaigns[id].runIds.Some? ==> RunIdsLoad(doc.campaigns[id]);
    }
  }

  lemma ShortLoads(doc: Document)
    requires Inv(doc)
    requires forall id | id in doc.campaigns :: |doc.campaigns[id].durations| <= WINDOW
    ensures Loads(doc)
  {
    forall id | id in doc.campaigns ensures RunIdsLoad(doc.campaigns[id]) {
      assert CampaignInv(doc.campaigns[id]);
    }
  }

  /** Once unreadable, the file stays as it is: no later record can change or repair it. */
  lemma {:induction false} UnreadableIsForever(doc: Document, samples: seq<Sample>)
    requires !Loads(doc)
    ensures RecordedAll(doc, samples) == doc
  {
    if samples != [] {
      UnreadableIsForever(doc, samples[..|samples| - 1]);
    }
  }

  /** Recording the same evidence again changes nothing, unless it is a clean sample without a run ID. */
  lemma RecordingTwiceIsRecordingOnce(doc: Document, s: Sample)
    requires s.Fails() || s.runId.Some?
    ensures Recorded(Recorded(doc, s).0, s).0 == Recorded(doc, s).0
  {
  }

  // ---------------------------------------------------------------------------
  // Which durations are on file
  // ---------------------------------------------------------------------------

  /** The latest durations, at most a window of them. */
  function Latest(s: seq<real>): (r: seq<real>)
    ensures |r| == Min(20, |s|) && r == s[|s| - |r|..]
  {
    s[|s| - Min(20, |s|)..]
  }

  /** The durations of an entry with one more clean run: all of them with run IDs, otherwise the latest. */
  function OnFile(durations: seq<real>, added: real, identified: bool): seq<real> {
    if identified then durations + [added] else Latest(durations + [added])
  }

  /**
   A clean sample that is added is on file with the latest durations before it, and these
   very durations decide: twenty of them accept the campaign if their percentile is below
   150 seconds, and disqualify it otherwise.
   */
  lemma AddedIsOnFile(doc: Document, s: Sample)
    requires Decide(doc, s).Add?
    ensures var doc' := Recorded(doc, s).0;
      var before := if s.campaignId in doc.campaigns then doc.campaigns[s.campaignId].durations else [];
      var durations := OnFile(before, s.duration, s.runId.Some?);
      if |durations| == 20 && NearestRank.P95(durations) >= 150.0 then
        s.campaignId in doc'.disqualified && s.campaignId !in doc'.campaigns && doc'.accepted == None
      else
        && s.campaignId in doc'.campaigns && doc'.campaigns[s.campaignId].durations == durations
        && doc'.disqualified == doc.disqualified
        && doc'.accepted == if |durations| == 20 then Some(s.campaignId) else doc.accepted
  {
    var c := Extended(Entry(doc, s), s);
    ExtendedIsOnFile(Entry(doc, s), s);
    AddedEntry(doc, s, c);
  }

  lemma ExtendedIsOnFile(c: Campaign, s: Sample)
    ensures Extended(c, s).durations == OnFile(c.durations, s.duration, s.runId.Some?)
  {
  }

  lemma AddedEntry(doc: Document, s: Sample, c: Campaign)
    requires Decide(doc, s).Add? && c == Extended(Entry(doc, s), s)
    ensures var doc' := Recorded(doc, s).0;
      if |c.durations| == 20 && NearestRank.P95(c.durations) >= 150.0 then
        s.campaignId in doc'.disqualified && s.campaignId !in doc'.campaigns && doc'.accepted == None
      else
        && s.campaignId in doc'.campaigns && doc'.campaigns[s.campaignId] == c
        && doc'.disqualified == doc.disqualified
        && doc'.accepted == if |c.durations| == 20 then Some(s.campaignId) else doc.accepted
  {
    assert Recorded(doc, s).0 == Added(doc, s);
  }

  /** The durations of the samples that a run of records added to a campaign, in order. */
  function AddedTo(samples: seq<Sample>, id: string): seq<real> {
    if samples == [] then []
    else
      var front, last := samples[..|samples| - 1], samples[|samples| - 1];
      var added := last.campaignId == id && Decide(RecordedAll(EMPTY, front), last).Add?;
      AddedTo(front, id) + if added then [last.duration] else []
  }

  /** What is on file of a campaign that is not disqualified: everything added, or the latest of it. */
  ghost predicate Files(doc: Document, id: string, added: seq<real>) {
    && (id !in doc.campaigns ==> id in doc.disqualified || added == [])
    && (id in doc.campaigns ==>
          doc.campaigns[id].durations == if doc.campaigns[id].runIds.Some? then added else Latest(added))
  }

  lemma LatestAgain(s: seq<real>, x: real)
    ensures Latest(Latest(s) + [x]) == Latest(s + [x])
  {
  }

  /** The entry of an added sample has all that was added with run IDs, or the latest of it without. */
  lemma EntryFiles(doc: Document, s: Sample, added: seq<real>)
    requires Inv(doc) && Files(doc, s.campaignId, added) && Decide(doc, s).Add?
    ensures var c := Extended(Entry(doc, s), s);
      c.durations == if c.runIds.Some? then added + [s.duration] else Latest(added + [s.duration])
  {
    LatestAgain(added, s.duration);
    ExtendedIsOnFile(Entry(doc, s), s);
    assert s.campaignId in doc.campaigns ==> CampaignInv(doc.campaigns[s.campaignId]);
  }

  lemma AddFiles(doc: Document, s: Sample, added: seq<real>)
    requires Inv(doc) && Files(doc, s.campaignId, added) && Decide(doc, s).Add?
    ensures Files(Recorded(doc, s).0, s.campaignId, added + [s.duration])
  {
    var c := Extended(Entry(doc, s), s);
    AddedEntry(doc, s, c);
    EntryFiles(doc, s, added);
  }

  /** A sample that is not added to a campaign leaves its entry alone, or removes it and disqualifies it. */
  lemma EntryStaysOrGoes(doc: Document, s: Sample, id: string)
    requires s.campaignId == id ==> !Decide(doc, s).Add?
    ensures var doc' := Recorded(doc, s).0;
      && doc.disqualified <= doc'.disqualified
      && (id in doc'.campaigns ==> id in doc.campaigns && doc'.campaigns[id] == doc.campaigns[id])
      && (id in doc.campaigns && id !in doc'.campaigns ==> id in doc'.disqualified)
  {
    match Decide(doc, s)
    case Add => AddedOther(doc, s, id);
    case _ =>
  }

  lemma AddedOther(doc: Document, s: Sample, id: string)
    requires Decide(doc, s).Add? && s.campaignId != id
    ensures var doc' := Recorded(doc, s).0;
      && doc.disqualified <= doc'.disqualified
      && (id in doc'.campaigns <==> id in doc.campaigns)
      && (id in doc.campaigns ==> doc'.campaigns[id] == doc.campaigns[id])
  {
    assert Recorded(doc, s).0 == Added(doc, s);
  }

  lemma OthersKeepFiles(doc: Document, s: Sample, id: string, added: seq<real>)
    requires Inv(doc) && Files(doc, id, added) && (s.campaignId == id ==> !Decide(doc, s).Add?)
    ensures Files(Recorded(doc, s).0, id, added)
  {
    EntryStaysOrGoes(doc, s, id);
  }

  lemma FilesNext(doc: Document, s: Sample, id: string, added: seq<real>)
    requires Inv(doc) && Files(doc, id, added)
    ensures Files(Recorded(doc, s).0, id,
      added + if s.campaignId == id && Decide(doc, s).Add? then [s.duration] else [])
  {
    if s.campaignId == id && Decide(doc, s).Add? {
      AddFiles(doc, s, added);
    } else {
      OthersKeepFiles(doc, s, id, added);
      assert added + [] == added;
    }
  }

  /** Over every run of records, a campaign on file without run IDs has the last twenty durations added to it. */
  lemma {:induction false} LatestAreOnFile(samples: seq<Sample>, id: string)
    ensures Files(RecordedAll(EMPTY, samples), id, AddedTo(samples, id))
  {
    if samples != [] {
      var front, last := samples[..|samples| - 1], samples[|samples| - 1];
      var doc := RecordedAll(EMPTY, front);
      LatestAreOnFile(front, id);
      RunsKeepInv(front, 0);
      FilesNext(doc, last, id, AddedTo(front, id));
    }
  }

  /** The clean sample fills another campaign's window. */
  predicate Fills(doc: Document, s: Sample) {
    Decide(doc, s).Add? && |Extended(Entry(doc, s), s).durations| == WINDOW
  }

  /**
   An accepted campaign loses its acceptance exactly when it fails itself or when any
   other campaign fills its window, whether that other campaign passes or not.
   */
  lemma AcceptanceIsLostIff(doc: Document, s: Sample)
    requires Inv(doc) && Loads(doc) && doc.accepted.Some?
    ensures Recorded(doc, s).0.accepted != doc.accepted
       <==> (s.Fails() && s.campaignId == doc.accepted.value) || Fills(doc, s)
  {
  }

  /** On any readable document a run of records leads to, the gate adds one demand: no run of 180 s. */
  lemma GateIff(samples: seq<Sample>, id: string, fingerprints: Fingerprints)
    requires Loads(RecordedAll(EMPTY, samples))
    ensures var doc := RecordedAll(EMPTY, samples);
      RequireAccepted(doc, id, fingerprints).Success?
      <==> && doc.accepted == Some(id)
           && id in doc.campaigns
           && doc.campaigns[id].fingerprints == fingerprints
           && forall d | d in doc.campaigns[id].durations :: d < 180.0
  {
    RunsKeepInv(samples, 0);
  }

  // ---------------------------------------------------------------------------
  // Documents that were not written by recording
  // ---------------------------------------------------------------------------

  /** The run IDs of a campaign are as many as its durations, at most twenty, and all different. */
  ghost predicate Identified(c: Campaign) {
    c.runIds.Some? ==>
      && |c.runIds.value| == |c.durations| <= 20
      && forall i, j | 0 <= i < j < |c.durations| :: c.runIds.value[i] != c.runIds.value[j]
  }

  /** Of any document: it can be read exactly in version one, or in version two with proper run IDs. */
  lemma LoadsIff(doc: Document)
    ensures Loads(doc) <==>
      || doc.schemaVersion == 1
      || (doc.schemaVersion == 2 && forall id | id in doc.campaigns :: Identified(doc.campaigns[id]))
  {
  }

  /** The gate, on any document: what it demands and what it answers. */
  lemma GateDemands(doc: Document, id: string, fingerprints: Fingerprints)
    ensures var r := RequireAccepted(doc, id, fingerprints);
      && (r.Success? <==>
            && Loads(doc)
            && doc.accepted == Some(id) && id !in doc.disqualified && id in doc.campaigns
            && var c := doc.campaigns[id];
              && |c.durations| == 20 && c.fingerprints == fingerprints && NearestRank.P95(c.durations) < 150.0
              && (forall d | d in c.durations :: d < 180.0)
              && (c.runIds.Some? ==> |c.runIds.value| == 20 && Distinct(c.runIds.value)))
      && (r.Success? ==>
            r.value == AcceptedCampaign(id, 20, NearestRank.P95(doc.campaigns[id].durations), fingerprints))
  {
  }

  /** A sample with a run ID is among those added. */
  ghost predicate AddsIdentified(samples: seq<Sample>) {
    exists k | 0 <= k < |samples| ::
      samples[k].runId.Some? && Decide(RecordedAll(EMPTY, samples[..k]), samples[k]).Add?
  }

  /** The file is of version two from the first run ID that is added, and of version one before. */
  lemma {:induction false} VersionTwoIff(samples: seq<Sample>)
    ensures RecordedAll(EMPTY, samples).schemaVersion == if AddsIdentified(samples) then 2 else 1
  {
    if samples != [] {
      var n := |samples| - 1;
      var front := samples[..n];
      VersionTwoIff(front);
      VersionStep(RecordedAll(EMPTY, front), samples[n]);
      assert forall k | 0 <= k < n :: front[..k] == samples[..k] && front[k] == samples[k];
      if AddsIdentified(front) {
        var k :| 0 <= k < n && front[k].runId.Some? && Decide(RecordedAll(EMPTY, front[..k]), front[k]).Add?;
        assert samples[k].runId.Some? && Decide(RecordedAll(EMPTY, samples[..k]), samples[k]).Add?;
      }
    }
  }

  lemma VersionStep(doc: Document, s: Sample)
    ensures Recorded(doc, s).0.schemaVersion ==
      if Decide(doc, s).Add? && s.runId.Some? then 2 else doc.schemaVersion
  {
    if Decide(doc, s).Add? {
      assert Recorded(doc, s).0 == Added(doc, s);
    }
  }
}
