/** When a dead-lettered message may be archived, and the coverage that can authorise it. */
module ArchiveDecision {
  import opened Prelude

  const MINUTE: int := 60_000_000
  const REREAD_MARGIN: int := 15 * MINUTE

  datatype Reason = ResourceReread | WindowReconciled | AgeExceeded | Retained

  datatype Decision = Decision(archive: bool, reason: Reason)

  /** What a decision reads of a message; `eventPrefix` is the part before the first dot. */
  datatype Message = Message(eventPrefix: string, seller: string, occurredAt: Option<int>)

  /** Per seller and read model, the edge up to which reconciliation covers it. */
  type Coverage = map<string, map<string, int>>

  function ModelFor(eventPrefix: string): Option<string> {
    if eventPrefix == "questions" then Some("questions") else None
  }

  function CoveredUntil(m: Message, coverage: Coverage): Option<int> {
    var model := ModelFor(m.eventPrefix);
    if model.Some? && m.seller in coverage && model.value in coverage[m.seller] then
      Some(coverage[m.seller][model.value])
    else None
  }

  function Decide(m: Message, coverage: Coverage, now: int, retention: int, rereadAt: Option<int>): Decision {
    var covered := CoveredUntil(m, coverage);
    if m.occurredAt.Some? && rereadAt.Some? && m.occurredAt.value + REREAD_MARGIN <= rereadAt.value <= now then
      Decision(true, ResourceReread)
    else if m.occurredAt.Some? && covered.Some? && covered.value >= m.occurredAt.value then
      Decision(true, WindowReconciled)
    else if m.occurredAt.Some? && now - m.occurredAt.value > retention then
      Decision(true, AgeExceeded)
    else Decision(false, Retained)
  }

  /** The resource was read again, a quarter of an hour or more after the event and not in the future. */
  ghost predicate ReadAgain(m: Message, now: int, rereadAt: Option<int>) {
    && m.occurredAt.Some? && rereadAt.Some?
    && m.occurredAt.value + 15 * 60 * 1_000_000 <= rereadAt.value && rereadAt.value <= now
  }

  /** Reconciliation of the seller's questions has reached the event. */
  ghost predicate Reconciled(m: Message, coverage: Coverage) {
    && m.occurredAt.Some? && m.eventPrefix == "questions"
    && m.seller in coverage && "questions" in coverage[m.seller]
    && m.occurredAt.value <= coverage[m.seller]["questions"]
  }

  ghost predicate TooOld(m: Message, now: int, retention: int) {
    m.occurredAt.Some? && now > m.occurredAt.value + retention
  }

  /** What authorises the removal of a message. */
  ghost predicate Removable(m: Message, coverage: Coverage, now: int, retention: int, rereadAt: Option<int>) {
    ReadAgain(m, now, rereadAt) || Reconciled(m, coverage) || TooOld(m, now, retention)
  }

  /** A message is archived exactly when something authorises it, and the reason given is the first that does. */
  lemma ArchivesIff(m: Message, coverage: Coverage, now: int, retention: int, rereadAt: Option<int>)
    ensures var d := Decide(m, coverage, now, retention, rereadAt);
      && (d.archive <==> Removable(m, coverage, now, retention, rereadAt))
      && (d.reason == ResourceReread <==> ReadAgain(m, now, rereadAt))
      && (d.reason == WindowReconciled <==> Reconciled(m, coverage) && !ReadAgain(m, now, rereadAt))
      && (d.reason == AgeExceeded <==>
            TooOld(m, now, retention) && !Reconciled(m, coverage) && !ReadAgain(m, now, rereadAt))
  {
  }

  /** Every edge of the first coverage is still there, or has moved later. */
  predicate Grows(c: Coverage, c': Coverage) {
    forall seller, model | seller in c && model in c[seller] ::
      seller in c' && model in c'[seller] && c[seller][model] <= c'[seller][model]
  }

  /** Time passing and coverage growing never turn an archive verdict back. */
  lemma ArchiveIsStable(
    m: Message, c: Coverage, c': Coverage, now: int, now': int, retention: int, rereadAt: Option<int>)
    requires Grows(c, c') && now <= now'
    requires Decide(m, c, now, retention, rereadAt).archive
    ensures Decide(m, c', now', retention, rereadAt).archive
  {
  }

  // ---------------------------------------------------------------------------
  // The read stamp of a resource
  // ---------------------------------------------------------------------------

  /** The latest of the stamps a document carries; a line without one is no evidence. */
  function RereadAt(stamps: seq<Option<int>>): (latest: Option<int>)
    ensures latest.None? <==> forall i | 0 <= i < |stamps| :: stamps[i].None?
    ensures latest.Some? ==> latest in stamps
    ensures latest.Some? ==> forall i | 0 <= i < |stamps| && stamps[i].Some? :: stamps[i].value <= latest.value
  {
    if stamps == [] then None
    else
      var rest := RereadAt(stamps[..|stamps| - 1]);
      var last := stamps[|stamps| - 1];
      if last.None? then rest else if rest.None? then last else Some(Max(rest.value, last.value))
  }

  predicate InWindow(m: Message, stamp: Option<int>, now: int) {
    m.occurredAt.Some? && stamp.Some? && m.occurredAt.value + REREAD_MARGIN <= stamp.value <= now
  }

  /**
   Only the latest stamp is compared, so one stamp from the future hides every good one:
   a re-read authorises the archive exactly when some stamp is in the window and none is
   later than now.
   */
  lemma RereadArchivesIff(m: Message, stamps: seq<Option<int>>, coverage: Coverage, now: int, retention: int)
    ensures Decide(m, coverage, now, retention, RereadAt(stamps)).reason == ResourceReread
       <==> && (exists i | 0 <= i < |stamps| :: InWindow(m, stamps[i], now))
            && (forall i | 0 <= i < |stamps| && stamps[i].Some? :: stamps[i].value <= now)
  {
    var latest := RereadAt(stamps);
    if latest.Some? {
      var i :| 0 <= i < |stamps| && stamps[i] == latest;
      assert InWindow(m, stamps[i], now) <==> InWindow(m, latest, now);
    }
  }

  /** A line read in the window alone archives its message; beside a line from the future it does not, until then. */
  lemma FutureStampHides(m: Message, good: int, future: int, coverage: Coverage, now: int, retention: int, later: int)
    requires InWindow(m, Some(good), now) && now < future <= later
    requires CoveredUntil(m, coverage).None? && now - m.occurredAt.value <= retention
    ensures Decide(m, coverage, now, retention, RereadAt([Some(good)])) == Decision(true, ResourceReread)
    ensures Decide(m, coverage, now, retention, RereadAt([Some(good), Some(future)])) == Decision(false, Retained)
    ensures Decide(m, coverage, later, retention, RereadAt([Some(good), Some(future)]))
      == Decision(true, ResourceReread)
  {
    var both := [Some(good), Some(future)];
    assert both[1] == Some(future) && RereadAt(both) == Some(future);
  }

  // ---------------------------------------------------------------------------
  // Coverage from freshness markers
  // ---------------------------------------------------------------------------

  /** A freshness marker; text fields are trimmed, `reconciled` and `observedOnly` are its flags. */
  datatype Row = Row(seller: string, model: string, reconciled: bool, observedOnly: bool, edge: Option<int>)
  {
    predicate Eligible() {
      seller != "" && model != "" && reconciled && !observedOnly && edge.Some?
    }

    predicate For(s: string, m: string) {
      Eligible() && seller == s && model == m
    }
  }

  ghost predicate HasEdge(c: Coverage, seller: string, model: string) {
    seller in c && model in c[seller]
  }

  /** The edge is the latest one that some eligible row claims for the seller and model. */
  ghost predicate IsLatest(rows: seq<Row>, seller: string, model: string, edge: int) {
    && (exists i | 0 <= i < |rows| :: rows[i].For(seller, model) && rows[i].edge == Some(edge))
    && (forall i | 0 <= i < |rows| && rows[i].For(seller, model) :: rows[i].edge.value <= edge)
  }

  /** What the coverage says about one pair: its latest edge, or nothing if no row claims it. */
  ghost predicate SaysRight(rows: seq<Row>, c: Coverage, seller: string, model: string) {
    if HasEdge(c, seller, model) then IsLatest(rows, seller, model, c[seller][model])
    else forall i | 0 <= i < |rows| :: !rows[i].For(seller, model)
  }

  ghost predicate IsCoverage(rows: seq<Row>, c: Coverage) {
    && (forall seller, model :: SaysRight(rows, c, seller, model))
    && (forall seller | seller in c :: c[seller] != map[])
  }

  method ReconciledCoverages(rows: seq<Row>) returns (coverage: Coverage)
    ensures IsCoverage(rows, coverage)
  {
    coverage := map[];
    for i := 0 to |rows|
      invariant IsCoverage(rows[..i], coverage)
    {
      var row := rows[i];
      ghost var before, seen := coverage, rows[..i + 1];
      if row.Eligible() {
        var models := if row.seller in coverage then coverage[row.seller] else map[];
        if row.model !in models || row.edge.value > models[row.model] {
          coverage := coverage[row.seller := models[row.model := row.edge.value]];
        }
      }
      assert seen == rows[..i] + [row];
      forall seller, model ensures SaysRight(seen, coverage, seller, model) {
        OneMoreRow(rows[..i], row, before, coverage, seller, model);
      }
    }
    assert rows[..|rows|] == rows;
  }

  lemma OneMoreRow(rows: seq<Row>, row: Row, c: Coverage, c': Coverage, seller: string, model: string)
    requires SaysRight(rows, c, seller, model)
    requires HasEdge(c', seller, model) <==> HasEdge(c, seller, model) || row.For(seller, model)
    requires HasEdge(c', seller, model) ==>
      c'[seller][model] == if HasEdge(c, seller, model)
        && !(row.For(seller, model) && row.edge.value > c[seller][model])
                           then c[seller][model] else row.edge.value
    ensures SaysRight(rows + [row], c', seller, model)
  {
    var more := rows + [row];
    assert more[|rows|] == row && forall i | 0 <= i < |rows| :: more[i] == rows[i];
    if HasEdge(c, seller, model) {
      var i :| 0 <= i < |rows| && rows[i].For(seller, model) && rows[i].edge == Some(c[seller][model]);
      assert more[i] == rows[i];
    }
  }

  /** Coverage depends on which rows there are, not on their order or repetition. */
  lemma CoverageIgnoresOrder(rows: seq<Row>, rows': seq<Row>, c: Coverage, c': Coverage)
    requires forall row :: row in rows <==> row in rows'
    requires IsCoverage(rows, c) && IsCoverage(rows', c')
    ensures c == c'
  {
    MoreRowsGrow(rows, rows', c, c');
    MoreRowsGrow(rows', rows, c', c);
    SameSellers(c, c');
    SameSellers(c', c);
    forall seller | seller in c ensures c[seller] == c'[seller] {
      assert forall model | model in c[seller] :: model in c'[seller];
      assert forall model | model in c'[seller] :: model in c[seller];
    }
  }

  lemma SameSellers(c: Coverage, c': Coverage)
    requires Grows(c, c')
    requires forall seller | seller in c :: c[seller] != map[]
    ensures c.Keys <= c'.Keys
  {
    forall seller | seller in c ensures seller in c' {
      var model :| model in c[seller];
    }
  }

  /** More markers only grow the coverage, so they never retract an archive verdict. */
  lemma MoreRowsGrow(rows: seq<Row>, rows': seq<Row>, c: Coverage, c': Coverage)
    requires forall row | row in rows :: row in rows'
    requires IsCoverage(rows, c) && IsCoverage(rows', c')
    ensures Grows(c, c')
  {
    forall seller, model | seller in c && model in c[seller]
      ensures seller in c' && model in c'[seller] && c[seller][model] <= c'[seller][model]
    {
      assert SaysRight(rows, c, seller, model) && SaysRight(rows', c', seller, model);
      var i :| 0 <= i < |rows| && rows[i].For(seller, model) && rows[i].edge == Some(c[seller][model]);
      assert rows[i] in rows';
      var j :| 0 <= j < |rows'| && rows'[j] == rows[i];
    }
  }
}
