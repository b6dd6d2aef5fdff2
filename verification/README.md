# Cliente Consolidado: the consolidation join, in Dafny

The service answers `GET /api/clientes/consolidado`. It fetches customer
segments, the customer registry and two pages of purchase details from
upstream endpoints. It joins them by `cliente_id` and returns one JSON record
per purchase detail:
`idcliente`, `nombre`, `segmento`, `cantidadcompra`, `costo`, `ultima_compra`.

This project models the data path of that handler (`get_clientes_consolidado`
in `app.py`) as a pure function. The function takes four upstream responses,
each an `ok` flag plus a body, and returns either an error or the list of
records. It follows the handler's Python semantics closely:

- Truthiness: `if not cliente_id` drops `None`, `0`, `0.0`, `False`, `""`,
  `[]` and `{}`.
- Dict keys: two ids address the same entry exactly when Python's `==` holds,
  so `True`, `1` and `1.0` are the same key. A list or dict id is unhashable
  and raises `TypeError`.
- `dict.get` and `json.loads`: when a JSON object repeats a name, the last
  occurrence wins.
- Iteration: a list yields its items, a string its characters, a dict its keys.
  A number, bool or `None` is not iterable.
- `list += x` extends the list with anything iterable. `str + str`
  concatenates. Two numbers add; adding a float to an int too large for a
  double raises `OverflowError`.
- Order of evaluation: of the exceptions the model represents
  (`JSONDecodeError`, `AttributeError`, `KeyError`, `TypeError`,
  `OverflowError`), the model raises the one Python's evaluation order reaches
  first. The blanket `except Exception` turns it into a 500.

Modules:

- `Wrappers` (`wrappers.dfy`): `Option` and `Result`.
- `PyJson` (`pyjson.dfy`): JSON values and the Python built-ins listed above.
- `Consolidado` (`consolidado.dfy`): the handler itself. `Envelope` reads the
  fixed envelope keys, `DetailData` combines the two detail pages, `Index` folds
  the two lookup dicts from the left, `Row` and `Join` run the loop over the
  details, and `Pipeline`, `Handle` and `Consolidate` put it together.
- `IndexProps`, `JoinProps` and `ConsolidadoProps`: the properties, proved for
  all inputs.
- `Scenarios`: worked examples, proved on small inputs.

How the handler treats malformed input:

- It reads the fixed envelope keys `clientes` and `clientes_info`, and
  defaults to `[]` when the key is absent.
- A segment or customer dict entry without `cliente_id`, `segmento` or
  `fullname` raises, as does a non-dict detail or an unhashable truthy id. The
  whole request then becomes a 500; nothing is skipped.
- A detail is kept exactly when its id is truthy.
- Page 2 is skipped only when its status is not ok. An ok page 2 with a
  non-JSON or non-object body fails the request.

## Model

| member | source | states |
|---|---|---|
| PyJson.GetIsLastNamed | app.py:92-94 | looking up a member of a parsed object finds nothing exactly when no member has that name; otherwise it yields the last member of that name |
| PyJson.Names | app.py:80-81 | the keys of a parsed object are exactly its member names, each once |
| PyJson.Iterate | app.py:80-84 | `for` over a number, bool or null raises `TypeError`; over a list it visits the items; over a string its one-character strings; over a dict each of its distinct member names exactly once |
| PyJson.HashKey | app.py:90-91 | an id can serve as a dict key exactly when it is not a list or dict |
| PyJson.HashKeyIsPyEq | app.py:90-91 | two hashable ids address the same dict entry exactly when Python's `==` holds between them |
| PyJson.FalsyKeys | app.py:86 | a hashable id is falsy exactly when it is, as a key, `0`, `""` or `None` |
| PyJson.InPlaceAdd | app.py:77 | `detalles_data += page2` keeps page 1's items first and appends what iterating page 2 yields; a string left side succeeds exactly on a string and concatenates; a number left side succeeds exactly on a number that converts, and adds; an int too large for a double mixed with a float raises `OverflowError`; everything else, a dict or null left side included, raises `TypeError` |
| PyJson.FloatLimitPastMaxDouble | app.py:77 | the int magnitude at which `int + float` starts raising `OverflowError` is the largest double plus half a unit in its last place, the point where rounding to nearest-even reaches 2^1024 |
| Consolidado.Envelope | app.py:72-74 | `.json().get(key, [])` raises `JSONDecodeError` on a non-JSON body and `AttributeError` on a non-object body; otherwise it yields the key's (last) value, or `[]` when the key is absent |
| Consolidado.DetailData | app.py:74-77 | when page 2 is not ok the detail data is page 1's alone; a failure reading page 1, or reading an ok page 2, fails it |
| Consolidado.EntryOf | app.py:80-81 | a dict-comprehension step skips non-dicts, raises exactly on a malformed dict entry, and otherwise binds the hashed id to the value member |
| Consolidado.Index | app.py:80-81 | building a lookup dict raises only `KeyError` or `TypeError` (see `IndexProps` for when and what it holds) |
| Consolidado.Join | app.py:83-95 | the loop over details raises only `AttributeError` or `TypeError`, emits at most one record per detail, and every emitted `idcliente` is truthy and hashable |
| Consolidado.Pipeline | app.py:72-95 | a successful run read only JSON-object bodies and emits only truthy, hashable ids; `JSONDecodeError` means some read body was not JSON; `OverflowError` arises only when page 2 was merged |
| Consolidado.Row | app.py:84-95 | one loop iteration raises exactly on a rejected detail, skips exactly a dict with a falsy id, and otherwise emits a record whose `idcliente` is the detail's id |
| Consolidado.Handle | app.py:99-101 | the blanket handler turns any raised exception into an error that carries it, and passes a result through unchanged |
| Consolidado.Consolidate | app.py:67-69 | the fixed upstream error is returned exactly when segments, customers or detail page 1 is not ok; any other error is a raised exception |
| IndexProps.IndexFailsIffMalformed | app.py:80-81 | building a lookup dict raises exactly when some dict entry lacks `cliente_id` or the value member, or has an unhashable id; non-dict entries never cause it |
| IndexProps.IndexLastWins | app.py:80-81 | a built dict holds a key exactly when some entry writes it, and holds the value of the last entry that writes it |
| IndexProps.LastWriterExists | app.py:80-81 | every key some entry writes has a last writer |
| JoinProps.Selected | app.py:84-87 | the kept details are exactly the details that are dicts with a truthy id |
| JoinProps.SelectedAppend | app.py:84-87 | the kept details of page 1 followed by page 2 are page 1's kept details followed by page 2's, so page 1's records come first |
| JoinProps.JoinFailsIffRejected | app.py:84-91 | the loop over details raises exactly when some detail is not a dict, or has a truthy but unhashable id |
| JoinProps.JoinSelects | app.py:83-95 | a successful loop emits one record per kept detail, in detail order, each the record built for that detail |
| ConsolidadoProps.LookupReads | app.py:92-94 | `detalle.get(name, default)` is the last member of that name, or the default when there is none |
| ConsolidadoProps.MapGetResolves | app.py:90-91 | a lookup in a built dict yields the last writer's value, or the fallback when no entry writes the key |
| ConsolidadoProps.AssembleRecordAt | app.py:84-95 | the `i`-th record of a successful join is built from the `i`-th kept detail: its id, the last customer's `fullname` or "Nombre no disponible", the last segment's `segmento` or "Sin segmento", and the detail's purchase fields with defaults 0, 0 and "" |
| ConsolidadoProps.AssembleRecords | app.py:80-95 | output cardinality and order equal the kept details; each record has the detail's id, the last customer's `fullname` or "Nombre no disponible", the last segment's `segmento` or "Sin segmento", and the detail's purchase fields with defaults 0, 0 and "" |
| ConsolidadoProps.AssembleFailsIff | app.py:80-91 | the join of lists fails exactly when a segment or customer dict entry is malformed or a detail is rejected |
| ConsolidadoProps.DetailPages | app.py:74-77 | the detail list is page 1's list, followed by page 2's list only when page 2 is ok |
| ConsolidadoProps.ConsolidateOnLists | app.py:67-97 | with list envelopes, the endpoint's outcome is the join of segments, customers and the concatenated detail pages, with exceptions handled |
| ConsolidadoProps.PageTwoNotOkIgnored | app.py:76-77 | a page 2 that is not ok cannot change the outcome, whatever its body |
| ConsolidadoProps.PageTwoNotOkLikeEmpty | app.py:76-77 | when page 1's data is a list, a non-ok page 2 gives the same outcome as an ok, empty page 2 |
| ConsolidadoProps.NonObjectBodyFails | app.py:72-77 | when a required body, or an ok page 2's body, is not a JSON object, the request fails with `JSONDecodeError` or `AttributeError` |
| Scenarios.KnownCustomer | app.py:84-95 | a detail for a known customer gets that customer's name and segment, and its purchase fields unchanged |
| Scenarios.UnknownCustomer | app.py:90-94 | an unknown id gets both sentinels and the defaults 0, 0 and "" |
| Scenarios.FalsyIdsDropped | app.py:85-87 | details with id 0, "", null or false, or with no id, yield no record |
| Scenarios.PagesInOrder | app.py:74-77 | page 1's records come before page 2's |
| Scenarios.TrueIsOne | app.py:80-91 | `True` overwrites the entry stored under `1`, and a detail id `1.0` finds it |
| Scenarios.MissingSegmentRaises | app.py:80 | a segment dict without `segmento` raises `KeyError`, while a non-dict segment entry is ignored |
| Scenarios.BrokenPageTwoRaises | app.py:76-77 | an ok page 2 whose body is not JSON fails the request |
| Scenarios.HugeIntMergeOverflows | app.py:76-77 | `+=` of a float onto an int of magnitude 2^1024 - 2^970 raises `OverflowError`; one less merges and fails later with `TypeError` |

## Left out

- The HTTP requests (`requests.get`, app.py:62-65) are not modelled; the four responses are inputs. A transport exception from any of the four calls would also reach the blanket handler. That includes page 2, so a page-2 connection failure fails the request. The model does not represent it.
- How `requests` decodes a body is reduced to "parsed JSON" or "not JSON" (`Payload`).
- Flask routing and `jsonify` are not modelled. An error keeps the exception kind, but not the message text `str(e)` or the HTTP status code.
- `health_check`, `index` and the shared `service_status` counters (app.py:24-54) are left out. They are wall-clock timestamps and a counter shared across threads, with no logic to prove.
- `keep_alive` and the scheduler (app.py:103-118) are left out. They are a timer-driven network self-ping.
- The gunicorn configuration is left out. gunicorn_config.py is not part of this model.
- Logging calls are left out. They do not affect the result.
- Parsing numbers is not modelled. A `JFloat` holds the finite double Python's parser produced, as an exact value. A literal that parses to an infinity or NaN is not representable: `Infinity`, `NaN`, or an out-of-range literal such as `1e400`. So ids `1e400` and `1e401` are the same key in Python, but have no counterpart here. Rounding a decimal literal to the nearest double is also outside the model.
- Strings are Dafny strings of Unicode scalar values. `json.loads` turns an escape such as `"\ud800"` into a string holding a lone surrogate, which cannot be represented here, so ids and fields holding one are outside the model.
- PyJson.InPlaceAdd: a float sum is the exact sum of the two values, without rounding to a double and without overflowing to infinity. The result is only ever iterated, which raises `TypeError` for any number. Only whether the addition raises affects the outcome, and the int-to-float `OverflowError` is modelled.
- Parse-time exceptions on valid JSON are not modelled: `.json()` raises `RecursionError` on a document nested deeper than the parser's recursion limit, and `ValueError` on an integer literal longer than 4300 digits (CPython's int-to-string limit). Neither is a `JSONDecodeError`, so the blanket handler turns either into a 500. The model treats such bodies as parsed and can report success on them. Out-of-memory is not modelled either.
