/** End-to-end properties of the endpoint: how the upstream responses decide
    between an error and a result, how the detail pages combine, and what
    each consolidated record holds. */
module ConsolidadoProps {
  import opened Wrappers
  import opened PyJson
  import opened Consolidado
  import opened IndexProps
  import opened JoinProps

  /** `got` is what `d.get(name, default)` reads from the members `ms`: the
      default when no member has that name, otherwise the last such member. */
  ghost predicate ReadsMember(ms: seq<Member>, name: string, default: Json, got: Json) {
    && ((forall i :: 0 <= i < |ms| ==> ms[i].name != name) ==> got == default)
    && (forall i :: LastNamed(ms, name, i) ==> got == ms[i].value)
  }

  /** `got` is what looking `k` up in the dict built from `items` yields: the
      fallback when no entry writes `k`, otherwise the last writer's value. */
  ghost predicate Resolves(items: seq<Json>, field: string, k: Key, fallback: Json, got: Json) {
    && (Unwritten(items, field, k) ==> got == fallback)
    && (forall j :: LastWriter(items, field, k, j) ==> FieldOf(items[j], field) == Some(got))
  }

  /** `rec` is the consolidated record for detail `d`. */
  ghost predicate Consolidates(rec: Record, d: Json, segItems: seq<Json>, cliItems: seq<Json>) {
    && Kept(d)
    && rec.idcliente == IdOf(d)
    && HashKey(IdOf(d)).Some?
    && Resolves(cliItems, NameField, HashKey(IdOf(d)).value, JStr(NoName), rec.nombre)
    && Resolves(segItems, SegmentField, HashKey(IdOf(d)).value, JStr(NoSegment), rec.segmento)
    && ReadsMember(d.members, CountField, JInt(0), rec.cantidadcompra)
    && ReadsMember(d.members, CostField, JInt(0), rec.costo)
    && ReadsMember(d.members, LastPurchaseField, JStr(""), rec.ultima_compra)
  }

  /** `d.get(name, default)` reads the last member of that name, or the default. */
  lemma LookupReads(ms: seq<Member>, name: string, default: Json)
    ensures ReadsMember(ms, name, default, Lookup(ms, name, default))
  {
    GetIsLastNamed(ms, name);
  }

  /** A lookup in a built dict resolves to the last writer, or the fallback. */
  lemma MapGetResolves(items: seq<Json>, field: string, k: Key, fallback: Json)
    requires Index(items, field).Success?
    ensures Resolves(items, field, k, fallback, MapGet(Index(items, field).value, k, fallback))
  {
    IndexLastWins(items, field);
  }

  /** Once segments, customers and details are lists, the `i`-th record of
      a successful join is the record of the `i`-th kept detail: it carries
      that detail's id, the customer's full name and segment from the LAST
      entry for the id (or the sentinels when none), and the purchase fields
      read from the detail with their defaults. */
  lemma AssembleRecordAt(segItems: seq<Json>, cliItems: seq<Json>, details: seq<Json>, i: int)
    requires Assemble(segItems, cliItems, details).Success?
    requires 0 <= i < |Selected(details)|
    ensures |Assemble(segItems, cliItems, details).value| == |Selected(details)|
    ensures Consolidates(Assemble(segItems, cliItems, details).value[i], Selected(details)[i], segItems, cliItems)
  {
    var segments := Index(segItems, SegmentField).value;
    var names := Index(cliItems, NameField).value;
    var out := Assemble(segItems, cliItems, details).value;
    JoinSelects(details, names, segments);
    var d := Selected(details)[i];
    assert Row(d, names, segments) == Success(Some(out[i]));
    var k := HashKey(IdOf(d)).value;
    MapGetResolves(cliItems, NameField, k, JStr(NoName));
    MapGetResolves(segItems, SegmentField, k, JStr(NoSegment));
    LookupReads(d.members, CountField, JInt(0));
    LookupReads(d.members, CostField, JInt(0));
    LookupReads(d.members, LastPurchaseField, JStr(""));
  }

  /** A successful join of lists yields exactly one record per detail that
      is a dict with a truthy id, in detail order, each the consolidated
      record of that detail. */
  lemma AssembleRecords(segItems: seq<Json>, cliItems: seq<Json>, details: seq<Json>)
    requires Assemble(segItems, cliItems, details).Success?
    ensures |Assemble(segItems, cliItems, details).value| == |Selected(details)|
    ensures forall i :: 0 <= i < |Selected(details)| ==>
              Consolidates(Assemble(segItems, cliItems, details).value[i], Selected(details)[i], segItems, cliItems)
  {
    JoinSelects(details, Index(cliItems, NameField).value, Index(segItems, SegmentField).value);
    forall i | 0 <= i < |Selected(details)|
      ensures Consolidates(Assemble(segItems, cliItems, details).value[i], Selected(details)[i], segItems, cliItems)
    {
      AssembleRecordAt(segItems, cliItems, details, i);
    }
  }

  /** The join of lists raises exactly when a segment or customer dict entry
      is malformed or a detail is rejected. */
  lemma AssembleFailsIff(segItems: seq<Json>, cliItems: seq<Json>, details: seq<Json>)
    ensures Assemble(segItems, cliItems, details).Failure? <==>
              || (exists i :: 0 <= i < |segItems| && Malformed(segItems[i], SegmentField))
              || (exists i :: 0 <= i < |cliItems| && Malformed(cliItems[i], NameField))
              || (exists i :: 0 <= i < |details| && Rejected(details[i]))
  {
    IndexFailsIffMalformed(segItems, SegmentField);
    IndexFailsIffMalformed(cliItems, NameField);
    if Index(segItems, SegmentField).Success? && Index(cliItems, NameField).Success? {
      JoinFailsIffRejected(details, Index(cliItems, NameField).value, Index(segItems, SegmentField).value);
    }
  }

  /** The detail list is page 1's `clientes_info` followed by page 2's, and
      page 2 contributes only when it answered ok. */
  lemma DetailPages(p1: Response, p2: Response, first: seq<Json>)
    requires Envelope(p1.body, DetailsKey) == Success(JArr(first))
    ensures !p2.ok ==> DetailData(p1, p2) == Success(JArr(first))
    ensures forall second :: p2.ok && Envelope(p2.body, DetailsKey) == Success(JArr(second)) ==>
              DetailData(p1, p2) == Success(JArr(first + second))
  {
  }

  /** With list-shaped envelopes everywhere, the endpoint is the join of
      segments, customers and page 1 followed (when ok) by page 2. */
  lemma ConsolidateOnLists(seg: Response, cli: Response, p1: Response, p2: Response,
                           segItems: seq<Json>, cliItems: seq<Json>, first: seq<Json>, second: seq<Json>)
    requires seg.ok && cli.ok && p1.ok
    requires Envelope(seg.body, ListKey) == Success(JArr(segItems))
    requires Envelope(cli.body, ListKey) == Success(JArr(cliItems))
    requires Envelope(p1.body, DetailsKey) == Success(JArr(first))
    requires p2.ok ==> Envelope(p2.body, DetailsKey) == Success(JArr(second))
    ensures Consolidate(seg, cli, p1, p2) == Handle(Assemble(segItems, cliItems, first + (if p2.ok then second else [])))
  {
    DetailPages(p1, p2, first);
    assert first + [] == first;
  }

  /** A page 2 that did not answer ok is ignored entirely: its body, parsed
      or not, cannot change the outcome. */
  lemma PageTwoNotOkIgnored(seg: Response, cli: Response, p1: Response, p2: Response, q2: Response)
    requires !p2.ok && !q2.ok
    ensures Consolidate(seg, cli, p1, p2) == Consolidate(seg, cli, p1, q2)
  {
  }

  /** When page 1's `clientes_info` is a list, a page 2 that is not ok gives
      the same outcome as an ok page 2 with an empty `clientes_info`. */
  lemma PageTwoNotOkLikeEmpty(seg: Response, cli: Response, p1: Response, p2: Response, q2: Response)
    requires !p2.ok
    requires q2.ok && Envelope(q2.body, DetailsKey) == Success(JArr([]))
    requires Envelope(p1.body, DetailsKey).Success? && Envelope(p1.body, DetailsKey).value.JArr?
    ensures Consolidate(seg, cli, p1, p2) == Consolidate(seg, cli, p1, q2)
  {
    var first := Envelope(p1.body, DetailsKey).value.items;
    assert first + [] == first;
    DetailPages(p1, p2, first);
    DetailPages(p1, q2, first);
  }

  /** Every body that is read must be a JSON object: a required response, or
      an ok page 2, whose body does not parse or parses to anything but an
      object makes the endpoint fail through the blanket handler. */
  lemma NonObjectBodyFails(seg: Response, cli: Response, p1: Response, p2: Response)
    requires seg.ok && cli.ok && p1.ok
    requires || !IsObject(seg.body) || !IsObject(cli.body) || !IsObject(p1.body)
             || (p2.ok && !IsObject(p2.body))
    ensures Consolidate(seg, cli, p1, p2).Failure?
    ensures Consolidate(seg, cli, p1, p2).error.Raised?
    ensures Consolidate(seg, cli, p1, p2).error.exception in {JSONDecodeError, AttributeError}
  {
  }
}
