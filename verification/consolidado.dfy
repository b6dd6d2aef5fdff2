/** The data path of the `/api/clientes/consolidado` endpoint: given the four
    upstream responses (segments, customers, detail pages 1 and 2) it either
    fails or yields the consolidated per-customer records, in the order the
    handler computes them and raising where the handler raises. */
module Consolidado {
  import opened Wrappers
  import opened PyJson

  /** A response body: what `response.json()` parses, or a body that is not
      JSON at all (`.json()` then raises `JSONDecodeError`). */
  datatype Payload = Parsed(json: Json) | Unparseable

  /** One upstream reply: `response.ok` (status below 400) and its body. */
  datatype Response = Response(ok: bool, body: Payload)

  /** How the endpoint fails: the fixed 500 for a required upstream that is
      not ok, or the 500 the blanket handler builds from a raised exception. */
  datatype Error = UpstreamNotOk | Raised(exception: PyException)

  /** One element of the endpoint's JSON array. */
  datatype Record = Record(
    idcliente: Json,
    nombre: Json,
    segmento: Json,
    cantidadcompra: Json,
    costo: Json,
    ultima_compra: Json)

  /** One dict-comprehension entry: the key it inserts and the value it stores. */
  datatype Binding = Binding(key: Key, value: Json)

  const ListKey := "clientes"
  const DetailsKey := "clientes_info"
  const IdField := "cliente_id"
  const SegmentField := "segmento"
  const NameField := "fullname"
  const CountField := "cantidad_de_compras"
  const CostField := "costo_de_compras"
  const LastPurchaseField := "ultima_compra"
  const NoName := "Nombre no disponible"
  const NoSegment := "Sin segmento"

  /** `item[name]` on a dict; None when `item` is not a dict or lacks the member. */
  function FieldOf(item: Json, name: string): (r: Option<Json>) {
    if item.JObj? then Get(item.members, name) else None
  }

  /** A dict entry the index comprehension cannot digest: it lacks the id or
      the value member (`KeyError`) or its id is unhashable (`TypeError`). */
  predicate Malformed(item: Json, field: string) {
    && item.JObj?
    && (|| FieldOf(item, IdField).None?
        || FieldOf(item, field).None?
        || HashKey(FieldOf(item, IdField).value).None?)
  }

  /** `item` is a dict entry that writes `field` under key `k`. */
  predicate Binds(item: Json, field: string, k: Key) {
    && FieldOf(item, IdField).Some?
    && FieldOf(item, field).Some?
    && HashKey(FieldOf(item, IdField).value) == Some(k)
  }

  /** The body parsed to a JSON object, the only shape `.get` accepts. */
  predicate IsObject(body: Payload) {
    body.Parsed? && body.json.JObj?
  }

  /** `response.json().get(key, [])`: the member under the fixed envelope key,
      or an empty list when it is absent. */
  function Envelope(body: Payload, key: string): (r: Result<Json, PyException>)
    ensures body.Unparseable? ==> r == Failure(JSONDecodeError)
    ensures body.Parsed? && !body.json.JObj? ==> r == Failure(AttributeError)
    ensures r.Success? <==> body.Parsed? && body.json.JObj?
    ensures r.Success? && Get(body.json.members, key).None? ==> r.value == JArr([])
    ensures r.Success? && Get(body.json.members, key).Some? ==> r.value == Get(body.json.members, key).value
  {
    match body
    case Unparseable => Failure(JSONDecodeError)
    case Parsed(j) =>
      if j.JObj? then Success(Lookup(j.members, key, JArr([]))) else Failure(AttributeError)
  }

  /** `detalles_data`: page 1's `clientes_info`, extended in place by page 2's
      when page 2 answered ok. */
  function DetailData(p1: Response, p2: Response): (r: Result<Json, PyException>)
    ensures !p2.ok ==> r == Envelope(p1.body, DetailsKey)
    ensures Envelope(p1.body, DetailsKey).Failure? ==> r.Failure?
    ensures p2.ok && Envelope(p2.body, DetailsKey).Failure? ==> r.Failure?
  {
    var first :- Envelope(p1.body, DetailsKey);
    if p2.ok then
      var second :- Envelope(p2.body, DetailsKey);
      InPlaceAdd(first, second)
    else
      Success(first)
  }

  /** One step of `{item['cliente_id']: item[field] for item in data if
      isinstance(item, dict)}`: non-dicts are filtered out (None); for a dict
      the key is read, then the value, then the key is hashed. */
  function EntryOf(item: Json, field: string): (r: Result<Option<Binding>, PyException>)
    ensures r.Failure? <==> Malformed(item, field)
    ensures r.Success? && r.value.None? <==> !item.JObj?
    ensures r.Success? && r.value.Some? ==>
              Binds(item, field, r.value.value.key) && FieldOf(item, field) == Some(r.value.value.value)
  {
    if !item.JObj? then Success(None)
    else
      match Get(item.members, IdField)
      case None => Failure(KeyError)
      case Some(id) =>
        match Get(item.members, field)
        case None => Failure(KeyError)
        case Some(v) =>
          match HashKey(id)
          case None => Failure(TypeError)
          case Some(k) => Success(Some(Binding(k, v)))
  }

  /** The lookup dict the comprehension builds, as a left fold over `items`:
      each dict entry overwrites whatever an earlier one stored under the
      same key. */
  function Index(items: seq<Json>, field: string): (r: Result<map<Key, Json>, PyException>)
    ensures r.Failure? ==> r.error == KeyError || r.error == TypeError
    decreases |items|
  {
    if |items| == 0 then Success(map[])
    else
      var m :- Index(items[..|items| - 1], field);
      var b :- EntryOf(items[|items| - 1], field);
      match b
      case None => Success(m)
      case Some(Binding(k, v)) => Success(m[k := v])
  }

  /** `cliente_id = detalle.get('cliente_id')`. */
  function IdOf(d: Json): (r: Json)
    requires d.JObj?
  {
    Lookup(d.members, IdField, JNull)
  }

  /** A detail that produces a record: a dict whose id is truthy. */
  predicate Kept(d: Json) {
    d.JObj? && Truthy(IdOf(d))
  }

  /** A detail that makes the loop raise: not a dict (`.get` is an
      `AttributeError`), or a truthy id that cannot be looked up in a dict
      (`TypeError`). */
  predicate Rejected(d: Json) {
    !d.JObj? || (Truthy(IdOf(d)) && HashKey(IdOf(d)).None?)
  }

  /** `m.get(k, default)` on one of the lookup dicts. */
  function MapGet(m: map<Key, Json>, k: Key, default: Json): (r: Json) {
    if k in m then m[k] else default
  }

  /** One iteration of the loop over the details: raises, skips (None), or
      builds the record for this detail. */
  function Row(d: Json, names: map<Key, Json>, segments: map<Key, Json>): (r: Result<Option<Record>, PyException>)
    ensures r.Failure? <==> Rejected(d)
    ensures r.Success? && r.value.None? <==> d.JObj? && !Truthy(IdOf(d))
    ensures r.Success? && r.value.Some? ==> Kept(d) && r.value.value.idcliente == IdOf(d)
  {
    if !d.JObj? then Failure(AttributeError)
    else
      var id := IdOf(d);
      if !Truthy(id) then Success(None)
      else
        match HashKey(id)
        case None => Failure(TypeError)
        case Some(k) =>
          Success(Some(Record(
            id,
            MapGet(names, k, JStr(NoName)),
            MapGet(segments, k, JStr(NoSegment)),
            Lookup(d.members, CountField, JInt(0)),
            Lookup(d.members, CostField, JInt(0)),
            Lookup(d.members, LastPurchaseField, JStr("")))))
  }

  /** The whole loop over the details, appending one record per kept detail. */
  function Join(details: seq<Json>, names: map<Key, Json>, segments: map<Key, Json>): (r: Result<seq<Record>, PyException>)
    ensures r.Failure? ==> r.error == AttributeError || r.error == TypeError
    ensures r.Success? ==> |r.value| <= |details|
    ensures r.Success? ==> forall rec :: rec in r.value ==> Truthy(rec.idcliente) && HashKey(rec.idcliente).Some?
    decreases |details|
  {
    if |details| == 0 then Success([])
    else
      var out :- Join(details[..|details| - 1], names, segments);
      var row :- Row(details[|details| - 1], names, segments);
      match row
      case None => Success(out)
      case Some(rec) => Success(out + [rec])
  }

  /** The join once segments, customers and details are in hand as lists. */
  function Assemble(segItems: seq<Json>, cliItems: seq<Json>, details: seq<Json>): (r: Result<seq<Record>, PyException>)
  {
    var segments :- Index(segItems, SegmentField);
    var names :- Index(cliItems, NameField);
    Join(details, names, segments)
  }

  /** Everything inside the `try` after the status check, in Python's order:
      the three envelopes, page 2, the segment dict, the customer dict, then
      the loop over the details. */
  function Pipeline(seg: Response, cli: Response, p1: Response, p2: Response): (r: Result<seq<Record>, PyException>)
    ensures r.Success? ==> IsObject(seg.body) && IsObject(cli.body) && IsObject(p1.body) && (p2.ok ==> IsObject(p2.body))
    ensures r.Success? ==> forall rec :: rec in r.value ==> Truthy(rec.idcliente) && HashKey(rec.idcliente).Some?
    ensures r == Failure(JSONDecodeError) ==>
              seg.body.Unparseable? || cli.body.Unparseable? || p1.body.Unparseable? || (p2.ok && p2.body.Unparseable?)
    ensures r == Failure(OverflowError) ==> p2.ok
  {
    var segData :- Envelope(seg.body, ListKey);
    var cliData :- Envelope(cli.body, ListKey);
    var detData :- DetailData(p1, p2);
    var segItems :- Iterate(segData);
    var segments :- Index(segItems, SegmentField);
    var cliItems :- Iterate(cliData);
    var names :- Index(cliItems, NameField);
    var details :- Iterate(detData);
    Join(details, names, segments)
  }

  /** The blanket `except Exception` handler: any raised exception becomes an
      error reply; a successful run passes through untouched. */
  function Handle(r: Result<seq<Record>, PyException>): (e: Result<seq<Record>, Error>)
    ensures e.Success? <==> r.Success?
    ensures r.Success? ==> e.value == r.value
    ensures r.Failure? ==> e.error == Raised(r.error)
  {
    match r
    case Success(out) => Success(out)
    case Failure(x) => Failure(Raised(x))
  }

  /** `get_clientes_consolidado` over already-received responses. */
  function Consolidate(seg: Response, cli: Response, p1: Response, p2: Response): (r: Result<seq<Record>, Error>)
    ensures !(seg.ok && cli.ok && p1.ok) <==> r == Failure(UpstreamNotOk)
    ensures r.Failure? && r.error.Raised? ==> seg.ok && cli.ok && p1.ok
  {
    if !(seg.ok && cli.ok && p1.ok) then Failure(UpstreamNotOk)
    else Handle(Pipeline(seg, cli, p1, p2))
  }
}
