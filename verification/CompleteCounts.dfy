/**
 The database filters behind the reconciliation counts: what adding presence guards does to
 a filter, and why no complete count exceeds the persisted count it is compared with.
 */
module CompleteCounts {
  import opened Prelude

  datatype Path =
    | Id | SellerId | DateCreated | ObservedAt | DateFrom | DateTo | CreatedAt
    | CatalogProductId | ItemId | OrderId | Status
    | Productive | ReturnedQuantity | QuantityBasis | AnswerText | AnswerDate
    | Other(name: string)

  datatype Value = Null | Text(text: string) | Number(number: int) | Flag(flag: bool)

  /** A document by its paths; paths are taken as independent of each other. */
  type Document = map<Path, Value>

  datatype Operator = Exists | Ne | Gte | Lt | In | Nin

  datatype Operand = BoolArg(flag: bool) | ValueArg(value: Value) | SetArg(values: set<Value>)

  /** What a filter asks of one path: a plain value, or operators with their operands. */
  datatype Condition = Plain(value: Value) | Ops(ops: map<Operator, Operand>)

  type Filter = map<Path, Condition>

  function At(doc: Document, f: Path): Option<Value> {
    if f in doc then Some(doc[f]) else None
  }

  /** A missing field equals null, and nothing else. */
  predicate Equals(v: Option<Value>, x: Value) {
    v == Some(x) || (v.None? && x.Null?)
  }

  predicate OpHolds(op: Operator, arg: Operand, v: Option<Value>) {
    match (op, arg)
    case (Exists, BoolArg(b)) => v.Some? == b
    case (Ne, ValueArg(x)) => !Equals(v, x)
    case (Gte, ValueArg(Number(n))) => v.Some? && v.value.Number? && v.value.number >= n
    case (Lt, ValueArg(Number(n))) => v.Some? && v.value.Number? && v.value.number < n
    case (In, SetArg(xs)) => exists x | x in xs :: Equals(v, x)
    case (Nin, SetArg(xs)) => forall x | x in xs :: !Equals(v, x)
    case _ => false
  }

  predicate Satisfies(c: Condition, v: Option<Value>) {
    match c
    case Plain(x) => Equals(v, x)
    case Ops(ops) => forall op | op in ops :: OpHolds(op, ops[op], v)
  }

  predicate MatchesAt(filter: Filter, doc: Document, f: Path) {
    f in filter ==> Satisfies(filter[f], At(doc, f))
  }

  predicate Matches(filter: Filter, doc: Document) {
    forall f | f in filter :: MatchesAt(filter, doc, f)
  }

  // ---------------------------------------------------------------------------
  // Presence guards
  // ---------------------------------------------------------------------------

  const PRESENCE: map<Operator, Operand> := map[Exists := BoolArg(true), Ne := ValueArg(Null)]

  /** The guard on a path: present and not null, unless the existing operators say otherwise. */
  function Guard(filter: Filter, f: Path): Condition {
    if f in filter && filter[f].Ops? then Ops(PRESENCE + filter[f].ops) else Ops(PRESENCE)
  }

  function Guarded(filter: Filter, fields: set<Path>): Filter {
    map f | f in filter.Keys + fields :: if f in fields then Guard(filter, f) else filter[f]
  }

  method WithPresentFields(filter: Filter, fields: seq<Path>) returns (scoped: Filter)
    ensures scoped == Guarded(filter, set f | f in fields)
  {
    scoped := filter;
    for i := 0 to |fields|
      invariant scoped == Guarded(filter, set f | f in fields[..i])
    {
      var fieldPath := fields[i];
      ghost var before, after := fields[..i], fields[..i + 1];
      ghost var done, more := set f | f in before, set f | f in after;
      assert after == before + [fieldPath];
      assert more == done + {fieldPath};
      GuardOneMore(filter, done, fieldPath);
      scoped := scoped[fieldPath := Guard(scoped, fieldPath)];
    }
    assert fields[..|fields|] == fields;
  }

  lemma GuardOneMore(filter: Filter, done: set<Path>, f: Path)
    ensures var scoped := Guarded(filter, done);
      scoped[f := Guard(scoped, f)] == Guarded(filter, done + {f})
  {
    var scoped := Guarded(filter, done);
    if f in done {
      var ops := Guard(filter, f).ops;
      assert PRESENCE + ops == ops;
    }
    assert Guard(scoped, f) == Guard(filter, f);
    var one, both := scoped[f := Guard(scoped, f)], Guarded(filter, done + {f});
    assert one.Keys == both.Keys;
    forall g | g in one ensures one[g] == both[g] {
    }
  }

  /** Guards only narrow a path whose condition is a map of operators, whatever the operators. */
  lemma GuardNarrows(filter: Filter, fields: set<Path>, doc: Document)
    requires forall f | f in fields && f in filter :: filter[f].Ops?
    requires Matches(Guarded(filter, fields), doc)
    ensures Matches(filter, doc)
  {
    var guarded := Guarded(filter, fields);
    forall f | f in filter ensures MatchesAt(filter, doc, f) {
      assert MatchesAt(guarded, doc, f);
      if f in fields {
        var all := PRESENCE + filter[f].ops;
        forall op | op in filter[f].ops ensures OpHolds(op, filter[f].ops[op], At(doc, f)) {
          assert op in all && all[op] == filter[f].ops[op];
        }
      }
    }
  }

  /** A guard replaces a plain value: then documents match that the filter excluded. */
  lemma GuardWidensPlain(filter: Filter, fields: set<Path>, f: Path, doc: Document) returns (other: Document)
    requires f in fields && f in filter && filter[f].Plain?
    requires Matches(Guarded(filter, fields), doc)
    ensures Matches(Guarded(filter, fields), other) && !Matches(filter, other)
  {
    var guarded := Guarded(filter, fields);
    var value := if filter[f].value == Flag(true) then Flag(false) else Flag(true);
    other := doc[f := value];
    PresentSatisfies(value);
    assert !MatchesAt(filter, other, f);
    forall g | g in guarded ensures MatchesAt(guarded, other, g) {
      if g != f {
        assert MatchesAt(guarded, doc, g) && At(other, g) == At(doc, g);
      } else {
        assert guarded[g] == Ops(PRESENCE);
      }
    }
  }

  lemma PresentSatisfies(v: Value)
    requires !v.Null?
    ensures Satisfies(Ops(PRESENCE), Some(v))
  {
  }

  /**
   For a guarded filter that any document satisfies, guards only narrow exactly when no
   guarded path carries a plain value.
   */
  lemma GuardsNarrowIff(filter: Filter, fields: set<Path>, doc: Document)
    requires Matches(Guarded(filter, fields), doc)
    ensures (forall d :: Matches(Guarded(filter, fields), d) ==> Matches(filter, d))
       <==> forall f | f in fields && f in filter :: filter[f].Ops?
  {
    if forall f | f in fields && f in filter :: filter[f].Ops? {
      forall d | Matches(Guarded(filter, fields), d) ensures Matches(filter, d) {
        GuardNarrows(filter, fields, d);
      }
    } else {
      var f :| f in fields && f in filter && filter[f].Plain?;
      var other := GuardWidensPlain(filter, fields, f, doc);
    }
  }

  // ---------------------------------------------------------------------------
  // The filters of the read models
  // ---------------------------------------------------------------------------

  datatype ReadModel =
    | Orders | Shipments | Items | Questions | Claims
    | CatalogProducts | CatalogBuybox | FormulaRows | SkuIndex | StatusStates | StatusTransitions
    | PriceHistory | Stockout | StockTime | CatalogTime | FullWithdrawals

  function InRange(start: int, end: int): Condition {
    Ops(map[Gte := ValueArg(Number(start)), Lt := ValueArg(Number(end))])
  }

  /** The window a read model is counted over. */
  function Window(model: ReadModel, start: int, end: int): Filter {
    match model
    case Orders | Questions | Claims => map[DateCreated := InRange(start, end)]
    case StatusTransitions => map[ObservedAt := InRange(start, end)]
    case StockTime | CatalogTime => map[DateFrom := Plain(Number(start)), DateTo := Plain(Number(end))]
    case FullWithdrawals => map[CreatedAt := InRange(start, end)]
    case _ => map[]
  }

  function RefPath(model: ReadModel): Path {
    match model
    case CatalogProducts => CatalogProductId
    case CatalogBuybox | PriceHistory | Stockout | StockTime | CatalogTime => ItemId
    case _ => Id
  }

  function PersistedFilter(model: ReadModel, seller: Value, start: int, end: int, refs: Option<set<Value>>): Filter {
    map[SellerId := Plain(seller)] + Window(model, start, end)
    + if refs.Some? then map[RefPath(model) := Ops(map[In := SetArg(refs.value)])] else map[]
  }

  /** The fields that make a document complete, for the models counted by a filter alone. */
  function CompleteFields(model: ReadModel): set<Path> {
    match model
    case Orders => {Other("items.0")}
    case Shipments => {OrderId, Status}
    case Items => {Status, Other("last_meli_sync_at")}
    case Questions => {DateCreated, Status, ItemId, Other("text"), Other("from_user_id")}
    case CatalogProducts => {CatalogProductId, Other("snapshot_at"), Other("source")}
    case CatalogBuybox => {ItemId, CatalogProductId, Other("buybox_status"), Other("snapshot_at"), Other("source")}
    case FormulaRows => {Other("current.status"), Other("current.price"), Other("current.listing_type_id")}
    case SkuIndex => {Other("normalized_sku"), ItemId, Other("source")}
    case StatusStates => {Other("current_status"), Other("last_observed_at")}
    case StatusTransitions => {Other("from_status"), Other("to_status"), ObservedAt}
    case _ => {}
  }

  function Filled(): Condition {
    Ops(map[Exists := BoolArg(true), Nin := SetArg({Null, Text("")})])
  }

  /** The claim's own conditions replace whatever the filter says of these paths. */
  function ClaimsFilter(filter: Filter): Filter {
    Guarded(filter, {DateCreated})[OrderId := Filled()][ItemId := Filled()][Status := Filled()]
  }

  predicate ProductiveReturn(doc: Document) {
    Matches(map[
      Productive := Plain(Flag(true)),
      ReturnedQuantity := Ops(map[Gte := ValueArg(Number(1))]),
      QuantityBasis := Plain(Text("v2_return_order"))], doc)
  }

  predicate UnansweredOrAnswered(doc: Document) {
    || Matches(map[Status := Ops(map[Ne := ValueArg(Text("ANSWERED"))])], doc)
    || Matches(Guarded(map[], {AnswerText, AnswerDate}), doc)
  }

  /** Models whose complete documents are judged one by one after the persisted filter. */
  predicate JudgedByDocument(model: ReadModel) {
    model in {PriceHistory, Stockout, StockTime, CatalogTime, FullWithdrawals}
  }

  /** Whether a document counts as complete; `judged` is the verdict on the document itself. */
  predicate CountsComplete(model: ReadModel, filter: Filter, doc: Document, judged: bool) {
    if model.Questions? then Matches(Guarded(filter, CompleteFields(model)), doc) && UnansweredOrAnswered(doc)
    else if model.Claims? then Matches(ClaimsFilter(filter), doc) && ProductiveReturn(doc)
    else if JudgedByDocument(model) then Matches(filter, doc) && judged
    else Matches(Guarded(filter, CompleteFields(model)), doc)
  }

  lemma ClaimsFilterNarrows(filter: Filter, doc: Document)
    requires OrderId !in filter && ItemId !in filter && Status !in filter
    requires DateCreated in filter ==> filter[DateCreated].Ops?
    requires Matches(ClaimsFilter(filter), doc)
    ensures Matches(filter, doc)
  {
    var guarded := Guarded(filter, {DateCreated});
    forall f | f in filter ensures MatchesAt(guarded, doc, f) {
      assert MatchesAt(ClaimsFilter(filter), doc, f);
    }
    forall f | f in guarded ensures MatchesAt(guarded, doc, f) {
      assert MatchesAt(ClaimsFilter(filter), doc, f);
    }
    GuardNarrows(filter, {DateCreated}, doc);
  }

  /** The persisted filter asks only for operators on the paths a complete count guards. */
  lemma GuardedPathsHaveOperators(
    model: ReadModel, seller: Value, start: int, end: int, refs: Option<set<Value>>, f: Path)
    requires !JudgedByDocument(model) && f in CompleteFields(model)
    ensures var filter := PersistedFilter(model, seller, start, end, refs);
      f in filter ==> filter[f].Ops?
  {
  }

  lemma ClaimsPathsAreFree(seller: Value, start: int, end: int, refs: Option<set<Value>>)
    ensures var filter := PersistedFilter(Claims, seller, start, end, refs);
      OrderId !in filter && ItemId !in filter && Status !in filter
        && (DateCreated in filter ==> filter[DateCreated].Ops?)
  {
  }

  /** No complete document is missing from the persisted ones, for any read model and request. */
  lemma CompleteIsPersisted(
    model: ReadModel, seller: Value, start: int, end: int, refs: Option<set<Value>>, doc: Document, judged: bool)
    requires CountsComplete(model, PersistedFilter(model, seller, start, end, refs), doc, judged)
    ensures Matches(PersistedFilter(model, seller, start, end, refs), doc)
  {
    var filter := PersistedFilter(model, seller, start, end, refs);
    if model.Claims? {
      ClaimsPathsAreFree(seller, start, end, refs);
      ClaimsFilterNarrows(filter, doc);
    } else if !JudgedByDocument(model) {
      var fields := CompleteFields(model);
      forall f | f in fields && f in filter ensures filter[f].Ops? {
        GuardedPathsHaveOperators(model, seller, start, end, refs, f);
      }
      GuardNarrows(filter, fields, doc);
    }
  }

  function CountPersisted(filter: Filter, docs: seq<Document>): nat {
    if docs == [] then 0
    else CountPersisted(filter, docs[1..]) + if Matches(filter, docs[0]) then 1 else 0
  }

  function CountComplete(model: ReadModel, filter: Filter, docs: seq<Document>, judged: set<Document>): nat {
    if docs == [] then 0
    else
      var first := if CountsComplete(model, filter, docs[0], docs[0] in judged) then 1 else 0;
      CountComplete(model, filter, docs[1..], judged) + first
  }

  /** So the complete count never exceeds the persisted count. */
  lemma {:induction false} CompleteWithinPersisted(
    model: ReadModel, seller: Value, start: int, end: int, refs: Option<set<Value>>,
    docs: seq<Document>, judged: set<Document>)
    ensures var filter := PersistedFilter(model, seller, start, end, refs);
      CountComplete(model, filter, docs, judged) <= CountPersisted(filter, docs)
  {
    if docs != [] {
      var filter := PersistedFilter(model, seller, start, end, refs);
      CompleteWithinPersisted(model, seller, start, end, refs, docs[1..], judged);
      if CountsComplete(model, filter, docs[0], docs[0] in judged) {
        CompleteIsPersisted(model, seller, start, end, refs, docs[0], docs[0] in judged);
      }
    }
  }

  // ---------------------------------------------------------------------------
  // What is counted, in terms of the documents
  // ---------------------------------------------------------------------------

  /** The field is there and not null. */
  ghost predicate Has(doc: Document, f: Path) {
    f in doc && doc[f] != Null
  }

  /** The field is this value; a missing one is null. */
  ghost predicate Is(doc: Document, f: Path, x: Value) {
    if f in doc then doc[f] == x else x == Null
  }

  ghost predicate Between(doc: Document, f: Path, start: int, end: int) {
    f in doc && doc[f].Number? && start <= doc[f].number && doc[f].number < end
  }

  ghost predicate AnyOf(doc: Document, f: Path, refs: Option<set<Value>>) {
    refs.Some? ==> exists x :: x in refs.value && Is(doc, f, x)
  }

  /** The document is in the window that its model is counted over. */
  ghost predicate InWindow(model: ReadModel, doc: Document, start: int, end: int) {
    match model
    case Orders => Between(doc, DateCreated, start, end)
    case Questions => Between(doc, DateCreated, start, end)
    case Claims => Between(doc, DateCreated, start, end)
    case StatusTransitions => Between(doc, ObservedAt, start, end)
    case FullWithdrawals => Between(doc, CreatedAt, start, end)
    case StockTime => Is(doc, DateFrom, Number(start)) && Is(doc, DateTo, Number(end))
    case CatalogTime => Is(doc, DateFrom, Number(start)) && Is(doc, DateTo, Number(end))
    case _ => true
  }

  /** The documents of a seller, in the window and with the references that the model is counted by. */
  ghost predicate PersistedDoc(
    model: ReadModel, seller: Value, start: int, end: int, refs: Option<set<Value>>, doc: Document)
  {
    && Is(doc, SellerId, seller) && InWindow(model, doc, start, end)
    && match model
       case CatalogProducts => AnyOf(doc, CatalogProductId, refs)
       case CatalogBuybox => AnyOf(doc, ItemId, refs)
       case PriceHistory => AnyOf(doc, ItemId, refs)
       case Stockout => AnyOf(doc, ItemId, refs)
       case StockTime => AnyOf(doc, ItemId, refs)
       case CatalogTime => AnyOf(doc, ItemId, refs)
       case _ => AnyOf(doc, Id, refs)
  }

  lemma InRangeIff(doc: Document, f: Path, start: int, end: int)
    ensures Satisfies(InRange(start, end), At(doc, f)) <==> Between(doc, f, start, end)
  {
    var ops := map[Gte := ValueArg(Number(start)), Lt := ValueArg(Number(end))];
    assert Gte in ops && Lt in ops;
    assert Satisfies(Ops(ops), At(doc, f)) <==>
      OpHolds(Gte, ops[Gte], At(doc, f)) && OpHolds(Lt, ops[Lt], At(doc, f));
  }

  lemma RefsIff(doc: Document, f: Path, refs: set<Value>)
    ensures Satisfies(Ops(map[In := SetArg(refs)]), At(doc, f)) <==> AnyOf(doc, f, Some(refs))
  {
    var ops := map[In := SetArg(refs)];
    assert In in ops;
    assert Satisfies(Ops(ops), At(doc, f)) <==> OpHolds(In, SetArg(refs), At(doc, f));
    assert forall x :: Equals(At(doc, f), x) <==> Is(doc, f, x);
  }

  lemma JoinedIff(a: Filter, b: Filter, doc: Document)
    requires a.Keys !! b.Keys
    ensures Matches(a + b, doc) <==> Matches(a, doc) && Matches(b, doc)
  {
    var both := a + b;
    if Matches(both, doc) {
      forall f | f in a ensures MatchesAt(a, doc, f) {
        assert MatchesAt(both, doc, f);
      }
      forall f | f in b ensures MatchesAt(b, doc, f) {
        assert MatchesAt(both, doc, f);
      }
    }
    if Matches(a, doc) && Matches(b, doc) {
      forall f | f in both ensures MatchesAt(both, doc, f) {
        assert MatchesAt(a, doc, f) && MatchesAt(b, doc, f);
      }
    }
  }

  lemma OneIff(f: Path, c: Condition, doc: Document)
    ensures Matches(map[f := c], doc) <==> Satisfies(c, At(doc, f))
  {
    assert Matches(map[f := c], doc) <==> MatchesAt(map[f := c], doc, f);
  }

  lemma WindowIff(model: ReadModel, doc: Document, start: int, end: int)
    ensures Matches(Window(model, start, end), doc) <==> InWindow(model, doc, start, end)
  {
    InRangeIff(doc, DateCreated, start, end);
    InRangeIff(doc, ObservedAt, start, end);
    InRangeIff(doc, CreatedAt, start, end);
    OneIff(DateCreated, InRange(start, end), doc);
    OneIff(ObservedAt, InRange(start, end), doc);
    OneIff(CreatedAt, InRange(start, end), doc);
    var from, to := map[DateFrom := Plain(Number(start))], map[DateTo := Plain(Number(end))];
    assert from + to == map[DateFrom := Plain(Number(start)), DateTo := Plain(Number(end))];
    JoinedIff(from, to, doc);
    OneIff(DateFrom, Plain(Number(start)), doc);
    OneIff(DateTo, Plain(Number(end)), doc);
  }

  /** The persisted filter of a model matches exactly these documents. */
  lemma PersistedIff(
    model: ReadModel, seller: Value, start: int, end: int, refs: Option<set<Value>>, doc: Document)
    ensures Matches(PersistedFilter(model, seller, start, end, refs), doc)
       <==> PersistedDoc(model, seller, start, end, refs, doc)
  {
    var own, window, asked := map[SellerId := Plain(seller)], Window(model, start, end), Asked(model, refs);
    OneIff(SellerId, Plain(seller), doc);
    WindowIff(model, doc, start, end);
    AskedIff(model, refs, doc);
    DisjointParts(model, seller, start, end, refs);
    JoinedIff(own, window, doc);
    JoinedIff(own + window, asked, doc);
  }

  ghost function Asked(model: ReadModel, refs: Option<set<Value>>): Filter {
    if refs.Some? then map[RefPath(model) := Ops(map[In := SetArg(refs.value)])] else map[]
  }

  lemma AskedIff(model: ReadModel, refs: Option<set<Value>>, doc: Document)
    ensures Matches(Asked(model, refs), doc) <==> AnyOf(doc, RefPath(model), refs)
  {
    if refs.Some? {
      OneIff(RefPath(model), Ops(map[In := SetArg(refs.value)]), doc);
      RefsIff(doc, RefPath(model), refs.value);
    }
  }

  lemma DisjointParts(model: ReadModel, seller: Value, start: int, end: int, refs: Option<set<Value>>)
    ensures var own, window, asked := map[SellerId := Plain(seller)], Window(model, start, end), Asked(model, refs);
      && own.Keys !! window.Keys && (own + window).Keys !! asked.Keys
      && PersistedFilter(model, seller, start, end, refs) == own + window + asked
  {
  }

  /** Guards that nothing in the filter overrides ask for their fields, and for nothing else. */
  lemma GuardedIff(filter: Filter, fields: set<Path>, doc: Document)
    requires forall f | f in fields && f in filter ::
      filter[f].Ops? && Exists !in filter[f].ops && Ne !in filter[f].ops
    ensures Matches(Guarded(filter, fields), doc) <==>
      Matches(filter, doc) && forall f :: f in fields ==> Has(doc, f)
  {
    var guarded := Guarded(filter, fields);
    forall f | f in fields ensures MatchesAt(guarded, doc, f) <==> MatchesAt(filter, doc, f) && Has(doc, f) {
      GuardAtIff(filter, f, doc);
    }
    if Matches(guarded, doc) {
      forall f | f in filter ensures MatchesAt(filter, doc, f) {
        assert MatchesAt(guarded, doc, f);
      }
      forall f | f in fields ensures Has(doc, f) {
        assert MatchesAt(guarded, doc, f);
      }
    }
    if Matches(filter, doc) && forall f :: f in fields ==> Has(doc, f) {
      forall f | f in guarded ensures MatchesAt(guarded, doc, f) {
        assert MatchesAt(filter, doc, f);
      }
    }
  }

  lemma GuardAtIff(filter: Filter, f: Path, doc: Document)
    requires f in filter ==> filter[f].Ops? && Exists !in filter[f].ops && Ne !in filter[f].ops
    ensures Satisfies(Guard(filter, f), At(doc, f)) <==> MatchesAt(filter, doc, f) && Has(doc, f)
  {
    var present := OpHolds(Exists, BoolArg(true), At(doc, f)) && OpHolds(Ne, ValueArg(Null), At(doc, f));
    assert present <==> Has(doc, f);
    var own := if f in filter then filter[f].ops else map[];
    var all := PRESENCE + own;
    assert Exists in all && Ne in all;
    assert forall op :: op in all <==> op == Exists || op == Ne || op in own;
    assert Satisfies(Ops(all), At(doc, f)) <==> present && Satisfies(Ops(own), At(doc, f));
  }

  ghost predicate HasAll(doc: Document, fields: seq<Path>) {
    forall f :: f in fields ==> Has(doc, f)
  }

  /** The field is there, and is neither null nor the empty text. */
  ghost predicate FilledIn(doc: Document, f: Path) {
    f in doc && doc[f] != Null && doc[f] != Text("")
  }

  /** What makes a persisted document complete. */
  ghost predicate CompleteDoc(model: ReadModel, doc: Document, judged: bool) {
    match model
    case Orders => Has(doc, Other("items.0"))
    case Shipments => HasAll(doc, [OrderId, Status])
    case Items => HasAll(doc, [Status, Other("last_meli_sync_at")])
    case Questions =>
      && HasAll(doc, [DateCreated, Status, ItemId, Other("text"), Other("from_user_id")])
      && (Is(doc, Status, Text("ANSWERED")) ==> HasAll(doc, [AnswerText, AnswerDate]))
    case Claims =>
      && FilledIn(doc, OrderId) && FilledIn(doc, ItemId) && FilledIn(doc, Status) && Has(doc, DateCreated)
      && Is(doc, Productive, Flag(true)) && Is(doc, QuantityBasis, Text("v2_return_order"))
      && ReturnedQuantity in doc && doc[ReturnedQuantity].Number? && doc[ReturnedQuantity].number >= 1
    case CatalogProducts => HasAll(doc, [CatalogProductId, Other("snapshot_at"), Other("source")])
    case CatalogBuybox =>
      HasAll(doc, [ItemId, CatalogProductId, Other("buybox_status"), Other("snapshot_at"), Other("source")])
    case FormulaRows => HasAll(doc, [Other("current.status"), Other("current.price"), Other("current.listing_type_id")])
    case SkuIndex => HasAll(doc, [Other("normalized_sku"), ItemId, Other("source")])
    case StatusStates => HasAll(doc, [Other("current_status"), Other("last_observed_at")])
    case StatusTransitions => HasAll(doc, [Other("from_status"), Other("to_status"), ObservedAt])
    case _ => judged
  }

  lemma FieldsIff(model: ReadModel, doc: Document)
    requires !JudgedByDocument(model) && !model.Claims?
    ensures (forall f :: f in CompleteFields(model) ==> Has(doc, f)) <==>
      match model
      case Questions => HasAll(doc, [DateCreated, Status, ItemId, Other("text"), Other("from_user_id")])
      case _ => CompleteDoc(model, doc, true)
  {
  }

  lemma FilledIff(doc: Document, f: Path)
    ensures Satisfies(Filled(), At(doc, f)) <==> FilledIn(doc, f)
  {
    var ops := map[Exists := BoolArg(true), Nin := SetArg({Null, Text("")})];
    assert Exists in ops && Nin in ops;
    assert Satisfies(Ops(ops), At(doc, f)) <==>
      OpHolds(Exists, BoolArg(true), At(doc, f)) && OpHolds(Nin, SetArg({Null, Text("")}), At(doc, f));
    assert OpHolds(Nin, SetArg({Null, Text("")}), At(doc, f)) <==>
      !Equals(At(doc, f), Null) && !Equals(At(doc, f), Text(""));
  }

  lemma AnsweredIff(doc: Document)
    ensures UnansweredOrAnswered(doc) <==>
      (Is(doc, Status, Text("ANSWERED")) ==> HasAll(doc, [AnswerText, AnswerDate]))
  {
    var ops := map[Ne := ValueArg(Text("ANSWERED"))];
    OneIff(Status, Ops(ops), doc);
    assert Ne in ops;
    assert Satisfies(Ops(ops), At(doc, Status)) <==> OpHolds(Ne, ValueArg(Text("ANSWERED")), At(doc, Status));
    GuardedIff(map[], {AnswerText, AnswerDate}, doc);
    assert HasAll(doc, [AnswerText, AnswerDate]) <==> Has(doc, AnswerText) && Has(doc, AnswerDate);
  }

  lemma ProductiveIff(doc: Document)
    ensures ProductiveReturn(doc) <==>
      && Is(doc, Productive, Flag(true)) && Is(doc, QuantityBasis, Text("v2_return_order"))
      && ReturnedQuantity in doc && doc[ReturnedQuantity].Number? && doc[ReturnedQuantity].number >= 1
  {
    var a, b := map[Productive := Plain(Flag(true))], map[ReturnedQuantity := Ops(map[Gte := ValueArg(Number(1))])];
    var c := map[QuantityBasis := Plain(Text("v2_return_order"))];
    assert a + b + c == map[
      Productive := Plain(Flag(true)), ReturnedQuantity := Ops(map[Gte := ValueArg(Number(1))]),
      QuantityBasis := Plain(Text("v2_return_order"))];
    JoinedIff(a, b, doc);
    JoinedIff(a + b, c, doc);
    OneIff(Productive, Plain(Flag(true)), doc);
    OneIff(ReturnedQuantity, Ops(map[Gte := ValueArg(Number(1))]), doc);
    OneIff(QuantityBasis, Plain(Text("v2_return_order")), doc);
    assert Gte in map[Gte := ValueArg(Number(1))];
  }

  lemma ClaimsIff(filter: Filter, doc: Document)
    requires OrderId !in filter && ItemId !in filter && Status !in filter
    requires DateCreated in filter ==>
      filter[DateCreated].Ops? && Exists !in filter[DateCreated].ops && Ne !in filter[DateCreated].ops
    ensures Matches(ClaimsFilter(filter), doc) <==>
      && Matches(filter, doc) && Has(doc, DateCreated)
      && FilledIn(doc, OrderId) && FilledIn(doc, ItemId) && FilledIn(doc, Status)
  {
    var guarded := Guarded(filter, {DateCreated});
    var own := map[OrderId := Filled(), ItemId := Filled(), Status := Filled()];
    assert ClaimsFilter(filter) == guarded + own;
    JoinedIff(guarded, own, doc);
    GuardedIff(filter, {DateCreated}, doc);
    AllFilledIff(doc);
  }

  lemma AllFilledIff(doc: Document)
    ensures Matches(map[OrderId := Filled(), ItemId := Filled(), Status := Filled()], doc) <==>
      FilledIn(doc, OrderId) && FilledIn(doc, ItemId) && FilledIn(doc, Status)
  {
    var own := map[OrderId := Filled(), ItemId := Filled(), Status := Filled()];
    var a, b, c := map[OrderId := Filled()], map[ItemId := Filled()], map[Status := Filled()];
    assert own == a + b + c;
    JoinedIff(a, b, doc);
    JoinedIff(a + b, c, doc);
    OneIff(OrderId, Filled(), doc);
    OneIff(ItemId, Filled(), doc);
    OneIff(Status, Filled(), doc);
    FilledIff(doc, OrderId);
    FilledIff(doc, ItemId);
    FilledIff(doc, Status);
  }

  /** A document counts as complete exactly if it is persisted and has what its model asks for. */
  lemma CompleteIff(
    model: ReadModel, seller: Value, start: int, end: int, refs: Option<set<Value>>, doc: Document, judged: bool)
    ensures CountsComplete(model, PersistedFilter(model, seller, start, end, refs), doc, judged) <==>
      PersistedDoc(model, seller, start, end, refs, doc) && CompleteDoc(model, doc, judged)
  {
    PersistedIff(model, seller, start, end, refs, doc);
    if model.Claims? {
      CompleteClaimsIff(seller, start, end, refs, doc, judged);
    } else if !JudgedByDocument(model) {
      CompleteFieldsIff(model, seller, start, end, refs, doc, judged);
    }
  }

  lemma CompleteClaimsIff(
    seller: Value, start: int, end: int, refs: Option<set<Value>>, doc: Document, judged: bool)
    ensures var filter := PersistedFilter(Claims, seller, start, end, refs);
      CountsComplete(Claims, filter, doc, judged) <==> Matches(filter, doc) && CompleteDoc(Claims, doc, judged)
  {
    ClaimsPathsAreFree(seller, start, end, refs);
    ClaimsIff(PersistedFilter(Claims, seller, start, end, refs), doc);
    ProductiveIff(doc);
  }

  lemma CompleteFieldsIff(
    model: ReadModel, seller: Value, start: int, end: int, refs: Option<set<Value>>, doc: Document, judged: bool)
    requires !JudgedByDocument(model) && !model.Claims?
    ensures var filter := PersistedFilter(model, seller, start, end, refs);
      CountsComplete(model, filter, doc, judged) <==> Matches(filter, doc) && CompleteDoc(model, doc, judged)
  {
    FieldsAreAsked(model, seller, start, end, refs, doc);
    FieldsIff(model, doc);
    AnsweredIff(doc);
  }

  lemma FieldsAreAsked(
    model: ReadModel, seller: Value, start: int, end: int, refs: Option<set<Value>>, doc: Document)
    requires !JudgedByDocument(model) && !model.Claims?
    ensures var filter := PersistedFilter(model, seller, start, end, refs);
      Matches(Guarded(filter, CompleteFields(model)), doc) <==>
        Matches(filter, doc) && forall f :: f in CompleteFields(model) ==> Has(doc, f)
  {
    var filter := PersistedFilter(model, seller, start, end, refs);
    forall f | f in CompleteFields(model) && f in filter
      ensures filter[f].Ops? && Exists !in filter[f].ops && Ne !in filter[f].ops
    {
      GuardedPathsHaveOperators(model, seller, start, end, refs, f);
    }
    GuardedIff(filter, CompleteFields(model), doc);
  }

  ghost function MatchesIn(filter: Filter, docs: seq<Document>): set<int> {
    set i | 0 <= i < |docs| && Matches(filter, docs[i])
  }

  ghost function CompletesIn(model: ReadModel, filter: Filter, docs: seq<Document>, judged: set<Document>): set<int> {
    set i | 0 <= i < |docs| && CountsComplete(model, filter, docs[i], docs[i] in judged)
  }

  lemma {:induction false} PersistedAre(filter: Filter, docs: seq<Document>)
    ensures CountPersisted(filter, docs) == |MatchesIn(filter, docs)|
  {
    if docs != [] {
      PersistedAre(filter, docs[1..]);
      var rest, all := MatchesIn(filter, docs[1..]), MatchesIn(filter, docs);
      Prepended(all, rest, |docs| - 1, 0 in all);
    }
  }

  lemma {:induction false} CompleteAre(model: ReadModel, filter: Filter, docs: seq<Document>, judged: set<Document>)
    ensures CountComplete(model, filter, docs, judged) == |CompletesIn(model, filter, docs, judged)|
  {
    if docs != [] {
      CompleteAre(model, filter, docs[1..], judged);
      var rest, all := CompletesIn(model, filter, docs[1..], judged), CompletesIn(model, filter, docs, judged);
      Prepended(all, rest, |docs| - 1, 0 in all);
    }
  }

  /** The counts are numbers of documents. */
  lemma CountsAre(model: ReadModel, filter: Filter, docs: seq<Document>, judged: set<Document>)
    ensures CountPersisted(filter, docs) == |MatchesIn(filter, docs)|
    ensures CountComplete(model, filter, docs, judged) == |CompletesIn(model, filter, docs, judged)|
  {
    PersistedAre(filter, docs);
    CompleteAre(model, filter, docs, judged);
  }
}
