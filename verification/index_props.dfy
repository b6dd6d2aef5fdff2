/** Properties of the two lookup dicts (segment by id, full name by id):
    which entries make the comprehension raise, which keys end up in the
    dict, and that the last entry for a key is the one that sticks. */
module IndexProps {
  import opened Wrappers
  import opened PyJson
  import opened Consolidado

  /** Entry `i` of `items` is the last one that writes `field` under key `k`. */
  ghost predicate LastWriter(items: seq<Json>, field: string, k: Key, i: int) {
    && 0 <= i < |items|
    && Binds(items[i], field, k)
    && forall j :: i < j < |items| ==> !Binds(items[j], field, k)
  }

  /** No entry of `items` writes `field` under key `k`. */
  ghost predicate Unwritten(items: seq<Json>, field: string, k: Key) {
    forall j :: 0 <= j < |items| ==> !Binds(items[j], field, k)
  }

  /** Building a lookup dict raises exactly when some dict entry is missing
      `cliente_id` or the value member, or has an unhashable id; non-dict
      entries never make it raise. */
  lemma {:induction false} IndexFailsIffMalformed(items: seq<Json>, field: string)
    ensures Index(items, field).Failure? <==> exists i :: 0 <= i < |items| && Malformed(items[i], field)
    decreases |items|
  {
    if |items| > 0 {
      var n := |items|;
      var pre := items[..n - 1];
      IndexFailsIffMalformed(pre, field);
      assert forall i :: 0 <= i < n - 1 ==> pre[i] == items[i];
      if Index(pre, field).Failure? {
        var i :| 0 <= i < |pre| && Malformed(pre[i], field);
        assert Malformed(items[i], field);
      } else {
        assert forall i :: 0 <= i < n - 1 ==> !Malformed(items[i], field);
      }
    }
  }

  /** A successful build holds a key exactly when some entry writes it, and
      under that key it holds the value of the LAST entry writing it. */
  lemma {:induction false} IndexLastWins(items: seq<Json>, field: string)
    requires Index(items, field).Success?
    ensures forall k :: k in Index(items, field).value <==> exists i :: 0 <= i < |items| && Binds(items[i], field, k)
    ensures forall k, i :: LastWriter(items, field, k, i) ==>
              k in Index(items, field).value && FieldOf(items[i], field) == Some(Index(items, field).value[k])
    decreases |items|
  {
    if |items| > 0 {
      var n := |items|;
      var pre := items[..n - 1];
      var last := items[n - 1];
      assert forall i :: 0 <= i < n - 1 ==> pre[i] == items[i];
      IndexLastWins(pre, field);
      var m' := Index(pre, field).value;
      var m := Index(items, field).value;
      var b := EntryOf(last, field);
      assert b.Success?;
      if b.value.None? {
        assert m == m';
        assert forall k :: !Binds(last, field, k);
        forall k, i | LastWriter(items, field, k, i)
          ensures k in m && FieldOf(items[i], field) == Some(m[k])
        {
          assert i < n - 1;
          assert LastWriter(pre, field, k, i);
        }
      } else {
        var bk := b.value.value.key;
        assert m == m'[bk := b.value.value.value];
        forall k | k in m
          ensures exists i :: 0 <= i < n && Binds(items[i], field, k)
        {
          if k != bk {
            var i :| 0 <= i < n - 1 && Binds(pre[i], field, k);
            assert Binds(items[i], field, k);
          } else {
            assert Binds(items[n - 1], field, k);
          }
        }
        forall k | exists i :: 0 <= i < n && Binds(items[i], field, k)
          ensures k in m
        {
          var i :| 0 <= i < n && Binds(items[i], field, k);
          if i < n - 1 {
            assert Binds(pre[i], field, k);
          }
        }
        forall k, i | LastWriter(items, field, k, i)
          ensures k in m && FieldOf(items[i], field) == Some(m[k])
        {
          if i < n - 1 {
            assert !Binds(last, field, k);
            assert k != bk;
            assert LastWriter(pre, field, k, i);
          } else {
            assert k == bk;
          }
        }
      }
    }
  }

  /** A key some entry writes always has a last writer. */
  lemma {:induction false} LastWriterExists(items: seq<Json>, field: string, k: Key)
    requires !Unwritten(items, field, k)
    ensures exists i :: LastWriter(items, field, k, i)
    decreases |items|
  {
    var n := |items|;
    if Binds(items[n - 1], field, k) {
      assert LastWriter(items, field, k, n - 1);
    } else {
      var pre := items[..n - 1];
      assert forall i :: 0 <= i < n - 1 ==> pre[i] == items[i];
      var j :| 0 <= j < n && Binds(items[j], field, k);
      assert Binds(pre[j], field, k);
      LastWriterExists(pre, field, k);
      var i :| LastWriter(pre, field, k, i);
      assert LastWriter(items, field, k, i);
    }
  }
}
