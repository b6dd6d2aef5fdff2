/** Worked examples of the endpoint, proved on small upstream replies. */
module Scenarios {
  import opened Wrappers
  import opened PyJson
  import opened Consolidado

  /** An ok response whose body is `{key: value}`. */
  function OkValue(key: string, value: Json): (r: Response) {
    Response(true, Parsed(JObj([Member(key, value)])))
  }

  /** An ok response whose body is `{key: items}`. */
  function OkList(key: string, items: seq<Json>): (r: Response) {
    OkValue(key, JArr(items))
  }

  /** A response that did not answer ok (its body is never read). */
  function Down(): (r: Response) {
    Response(false, Unparseable)
  }

  /** A segment or customer entry `{"cliente_id": id, field: value}`. */
  function Entry(id: Json, field: string, value: Json): (r: Json) {
    JObj([Member(IdField, id), Member(field, value)])
  }

  /** A detail carrying only its id. */
  function Bare(id: Json): (r: Json) {
    JObj([Member(IdField, id)])
  }

  /** The record of a detail that has only an id nobody knows. */
  function Unknown(id: Json): (r: Record) {
    Record(id, JStr(NoName), JStr(NoSegment), JInt(0), JInt(0), JStr(""))
  }

  /** An ok `{key: [...]}` body yields its list. */
  lemma EnvelopeOfList(key: string, items: seq<Json>)
    ensures Envelope(OkList(key, items).body, key) == Success(JArr(items))
  {
  }

  /** Appending a kept detail appends its record. */
  lemma JoinSnoc(pre: seq<Json>, d: Json, names: map<Key, Json>, segments: map<Key, Json>, out: seq<Record>, rec: Record)
    requires Join(pre, names, segments) == Success(out)
    requires Row(d, names, segments) == Success(Some(rec))
    ensures Join(pre + [d], names, segments) == Success(out + [rec])
  {
    var ds := pre + [d];
    assert ds[..|ds| - 1] == pre;
    assert ds[|ds| - 1] == d;
    assert Join(ds[..|ds| - 1], names, segments) == Success(out);
    assert Row(ds[|ds| - 1], names, segments) == Success(Some(rec));
    assert Join(ds, names, segments) == Success(out + [rec]);
  }

  /** A single kept detail yields its single record. */
  lemma JoinOne(d: Json, names: map<Key, Json>, segments: map<Key, Json>, rec: Record)
    requires Row(d, names, segments) == Success(Some(rec))
    ensures Join([d], names, segments) == Success([rec])
  {
    JoinSnoc([], d, names, segments, [], rec);
    assert [] + [d] == [d];
    assert [] + [rec] == [rec];
  }

  /** A well-formed two-member entry binds its hashed id to its value. */
  lemma EntryOfEntry(id: Json, field: string, v: Json)
    requires field != IdField && HashKey(id).Some?
    ensures EntryOf(Entry(id, field, v), field) == Success(Some(Binding(HashKey(id).value, v)))
  {
    var ms := Entry(id, field, v).members;
    assert ms[..1] == [Member(IdField, id)];
    assert Get(ms, IdField) == Some(id);
  }

  /** A detail with only a truthy id gets the lookups and the purchase defaults. */
  lemma RowOfBare(id: Json, names: map<Key, Json>, segments: map<Key, Json>)
    requires Truthy(id) && HashKey(id).Some?
    ensures Row(Bare(id), names, segments)
            == Success(Some(Record(id, MapGet(names, HashKey(id).value, JStr(NoName)),
                                   MapGet(segments, HashKey(id).value, JStr(NoSegment)),
                                   JInt(0), JInt(0), JStr(""))))
  {
    var ms := Bare(id).members;
    assert ms[..0] == [];
    assert Get(ms, CountField).None?;
    assert Get(ms, CostField).None?;
    assert Get(ms, LastPurchaseField).None?;
  }

  /** A single well-formed entry builds a one-key dict. */
  lemma IndexOne(item: Json, field: string, b: Binding)
    requires EntryOf(item, field) == Success(Some(b))
    ensures Index([item], field) == Success(map[b.key := b.value])
  {
    assert [item][..0] == [];
    assert [item][|[item]| - 1] == item;
  }

  /** A known customer with a segment and all purchase fields. */
  lemma KnownCustomer()
    ensures Consolidate(
              OkList(ListKey, [Entry(JInt(1), SegmentField, JStr("gold"))]),
              OkList(ListKey, [Entry(JInt(1), NameField, JStr("Ana"))]),
              OkList(DetailsKey, [JObj([Member(IdField, JInt(1)), Member(CountField, JInt(3)),
                                        Member(CostField, JInt(150)), Member(LastPurchaseField, JStr("2024-01-01"))])]),
              Down())
            == Success([Record(JInt(1), JStr("Ana"), JStr("gold"), JInt(3), JInt(150), JStr("2024-01-01"))])
  {
    var s := Entry(JInt(1), SegmentField, JStr("gold"));
    var c := Entry(JInt(1), NameField, JStr("Ana"));
    var dm := [Member(IdField, JInt(1)), Member(CountField, JInt(3)),
               Member(CostField, JInt(150)), Member(LastPurchaseField, JStr("2024-01-01"))];
    var d := JObj(dm);
    EnvelopeOfList(ListKey, [s]);
    EnvelopeOfList(ListKey, [c]);
    EnvelopeOfList(DetailsKey, [d]);
    EntryOfEntry(JInt(1), SegmentField, JStr("gold"));
    EntryOfEntry(JInt(1), NameField, JStr("Ana"));
    IndexOne(s, SegmentField, Binding(NumKey(1.0), JStr("gold")));
    IndexOne(c, NameField, Binding(NumKey(1.0), JStr("Ana")));
    GetIsLastNamed(dm, IdField);
    assert LastNamed(dm, IdField, 0);
    GetIsLastNamed(dm, CountField);
    assert LastNamed(dm, CountField, 1);
    var rec := Record(JInt(1), JStr("Ana"), JStr("gold"), JInt(3), JInt(150), JStr("2024-01-01"));
    GetIsLastNamed(dm, CostField);
    assert LastNamed(dm, CostField, 2);
    GetIsLastNamed(dm, LastPurchaseField);
    assert LastNamed(dm, LastPurchaseField, 3);
    JoinOne(d, map[NumKey(1.0) := JStr("Ana")], map[NumKey(1.0) := JStr("gold")], rec);
  }

  /** An unknown customer with no purchase fields gets the sentinels and defaults. */
  lemma UnknownCustomer()
    ensures Consolidate(OkList(ListKey, []), OkList(ListKey, []),
                        OkList(DetailsKey, [Bare(JInt(2))]), Down())
            == Success([Unknown(JInt(2))])
  {
    EnvelopeOfList(ListKey, []);
    EnvelopeOfList(DetailsKey, [Bare(JInt(2))]);
    RowOfBare(JInt(2), map[], map[]);
    JoinOne(Bare(JInt(2)), map[], map[], Unknown(JInt(2)));
  }

  /** Details with a falsy id (0, "", null, false, or none at all) are dropped. */
  lemma FalsyIdsDropped()
    ensures Consolidate(OkList(ListKey, []), OkList(ListKey, []),
                        OkList(DetailsKey, [Bare(JInt(0)), Bare(JStr("")), Bare(JNull), Bare(JBool(false)), JObj([])]),
                        Down())
            == Success([])
  {
    var ds := [Bare(JInt(0)), Bare(JStr("")), Bare(JNull), Bare(JBool(false)), JObj([])];
    EnvelopeOfList(ListKey, []);
    EnvelopeOfList(DetailsKey, ds);
    assert Join(ds[..1], map[], map[]) == Success([]) by {
      assert ds[..1][..0] == [];
    }
    assert Join(ds[..2], map[], map[]) == Success([]) by {
      assert ds[..2][..1] == ds[..1];
    }
    assert Join(ds[..3], map[], map[]) == Success([]) by {
      assert ds[..3][..2] == ds[..2];
    }
    assert Join(ds[..4], map[], map[]) == Success([]) by {
      assert ds[..4][..3] == ds[..3];
    }
    assert Join(ds, map[], map[]) == Success([]) by {
      assert ds[..4] == ds[..|ds| - 1];
    }
  }

  /** Page 1 details come before page 2 details. */
  lemma PagesInOrder()
    ensures Consolidate(OkList(ListKey, []), OkList(ListKey, []),
                        OkList(DetailsKey, [Bare(JInt(1)), Bare(JInt(2))]),
                        OkList(DetailsKey, [Bare(JInt(3))]))
            == Success([Unknown(JInt(1)), Unknown(JInt(2)), Unknown(JInt(3))])
  {
    var ds := [Bare(JInt(1)), Bare(JInt(2)), Bare(JInt(3))];
    EnvelopeOfList(ListKey, []);
    EnvelopeOfList(DetailsKey, ds[..2]);
    EnvelopeOfList(DetailsKey, ds[2..]);
    assert ds[..2] + ds[2..] == ds;
    assert DetailData(OkList(DetailsKey, ds[..2]), OkList(DetailsKey, ds[2..])) == Success(JArr(ds));
    RowOfBare(JInt(1), map[], map[]);
    RowOfBare(JInt(2), map[], map[]);
    RowOfBare(JInt(3), map[], map[]);
    JoinOne(ds[0], map[], map[], Unknown(JInt(1)));
    assert [ds[0]] + [ds[1]] == ds[..2];
    JoinSnoc([ds[0]], ds[1], map[], map[], [Unknown(JInt(1))], Unknown(JInt(2)));
    assert [Unknown(JInt(1))] + [Unknown(JInt(2))] == [Unknown(JInt(1)), Unknown(JInt(2))];
    assert Join(ds[..2], map[], map[]) == Success([Unknown(JInt(1)), Unknown(JInt(2))]);
    assert ds[..2] + [ds[2]] == ds;
    JoinSnoc(ds[..2], ds[2], map[], map[], [Unknown(JInt(1)), Unknown(JInt(2))], Unknown(JInt(3)));
    assert [Unknown(JInt(1)), Unknown(JInt(2))] + [Unknown(JInt(3))]
           == [Unknown(JInt(1)), Unknown(JInt(2)), Unknown(JInt(3))];
  }

  /** `True` and `1` are the same dict key, and the later segment entry wins;
      a detail id of `1.0` finds it too. */
  lemma TrueIsOne()
    ensures Consolidate(OkList(ListKey, [Entry(JInt(1), SegmentField, JStr("gold")),
                                         Entry(JBool(true), SegmentField, JStr("silver"))]),
                        OkList(ListKey, []),
                        OkList(DetailsKey, [Bare(JFloat(1.0))]), Down())
            == Success([Record(JFloat(1.0), JStr(NoName), JStr("silver"), JInt(0), JInt(0), JStr(""))])
  {
    var ss := [Entry(JInt(1), SegmentField, JStr("gold")), Entry(JBool(true), SegmentField, JStr("silver"))];
    EnvelopeOfList(ListKey, ss);
    EnvelopeOfList(ListKey, []);
    EnvelopeOfList(DetailsKey, [Bare(JFloat(1.0))]);
    EntryOfEntry(JInt(1), SegmentField, JStr("gold"));
    EntryOfEntry(JBool(true), SegmentField, JStr("silver"));
    IndexOne(ss[0], SegmentField, Binding(NumKey(1.0), JStr("gold")));
    assert ss[..1] == [ss[0]];
    assert Index(ss, SegmentField) == Success(map[NumKey(1.0) := JStr("silver")]) by {
      assert ss[..|ss| - 1] == ss[..1];
      assert map[NumKey(1.0) := JStr("gold")][NumKey(1.0) := JStr("silver")] == map[NumKey(1.0) := JStr("silver")];
    }
    RowOfBare(JFloat(1.0), map[], map[NumKey(1.0) := JStr("silver")]);
    JoinOne(Bare(JFloat(1.0)), map[], map[NumKey(1.0) := JStr("silver")],
            Record(JFloat(1.0), JStr(NoName), JStr("silver"), JInt(0), JInt(0), JStr("")));
  }

  /** A segment dict without `segmento` fails the request with `KeyError`,
      while a non-dict segment entry is ignored. */
  lemma MissingSegmentRaises()
    ensures Consolidate(OkList(ListKey, [JStr("noise"), Bare(JInt(1))]),
                        OkList(ListKey, []), OkList(DetailsKey, []), Down())
            == Failure(Raised(KeyError))
    ensures Consolidate(OkList(ListKey, [JStr("noise")]),
                        OkList(ListKey, []), OkList(DetailsKey, []), Down())
            == Success([])
  {
    var ss := [JStr("noise"), Bare(JInt(1))];
    EnvelopeOfList(ListKey, ss);
    EnvelopeOfList(ListKey, ss[..1]);
    EnvelopeOfList(ListKey, []);
    EnvelopeOfList(DetailsKey, []);
    assert Index(ss[..1], SegmentField) == Success(map[]) by {
      assert ss[..1][..0] == [];
    }
    assert Index(ss, SegmentField) == Failure(KeyError) by {
      assert ss[..|ss| - 1] == ss[..1];
    }
  }

  /** An ok page 2 whose body is not JSON fails the whole request. */
  lemma BrokenPageTwoRaises()
    ensures Consolidate(OkList(ListKey, []), OkList(ListKey, []), OkList(DetailsKey, []),
                        Response(true, Unparseable))
            == Failure(Raised(JSONDecodeError))
  {
    EnvelopeOfList(ListKey, []);
    EnvelopeOfList(DetailsKey, []);
  }

  /** `detalles_data += 1.0` on an int of magnitude `FloatLimit` raises
      `OverflowError` at the merge; one less converts, and the run instead
      fails later, iterating a number. */
  lemma HugeIntMergeOverflows()
    ensures Consolidate(OkList(ListKey, []), OkList(ListKey, []), OkValue(DetailsKey, JInt(FloatLimit)),
                        OkValue(DetailsKey, JFloat(1.0)))
            == Failure(Raised(OverflowError))
    ensures Consolidate(OkList(ListKey, []), OkList(ListKey, []), OkValue(DetailsKey, JInt(FloatLimit - 1)),
                        OkValue(DetailsKey, JFloat(1.0)))
            == Failure(Raised(TypeError))
  {
    EnvelopeOfList(ListKey, []);
  }
}
