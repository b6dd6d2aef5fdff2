/** Properties of the loop over the details: which details make it raise,
    and that it yields exactly one record per kept detail, in order. */
module JoinProps {
  import opened Wrappers
  import opened PyJson
  import opened Consolidado

  /** The details that yield a record, in their original order. */
  ghost function Selected(details: seq<Json>): (s: seq<Json>)
    ensures |s| <= |details|
    ensures forall d :: d in s <==> d in details && Kept(d)
    decreases |details|
  {
    if |details| == 0 then []
    else
      var last := details[|details| - 1];
      Selected(details[..|details| - 1]) + (if Kept(last) then [last] else [])
  }

  /** Selecting from two lists one after the other selects from each in
      turn: the kept details of page 1 come before those of page 2. */
  lemma {:induction false} SelectedAppend(a: seq<Json>, b: seq<Json>)
    ensures Selected(a + b) == Selected(a) + Selected(b)
    decreases |b|
  {
    if |b| > 0 {
      var last := b[|b| - 1];
      assert (a + b)[..|a + b| - 1] == a + b[..|b| - 1];
      assert (a + b)[|a + b| - 1] == last;
      SelectedAppend(a, b[..|b| - 1]);
    } else {
      assert a + b == a;
    }
  }

  /** The loop raises exactly when some detail is not a dict or carries a
      truthy but unhashable id; dicts with a falsy id never make it raise. */
  lemma {:induction false} JoinFailsIffRejected(details: seq<Json>, names: map<Key, Json>, segments: map<Key, Json>)
    ensures Join(details, names, segments).Failure? <==> exists i :: 0 <= i < |details| && Rejected(details[i])
    decreases |details|
  {
    if |details| > 0 {
      var n := |details|;
      var pre := details[..n - 1];
      JoinFailsIffRejected(pre, names, segments);
      assert forall i :: 0 <= i < n - 1 ==> pre[i] == details[i];
      if Join(pre, names, segments).Failure? {
        var i :| 0 <= i < |pre| && Rejected(pre[i]);
        assert Rejected(details[i]);
      } else {
        assert forall i :: 0 <= i < n - 1 ==> !Rejected(details[i]);
      }
    }
  }

  /** A successful loop yields one record per selected detail, in detail
      order, each the record that detail's iteration builds. */
  lemma {:induction false} JoinSelects(details: seq<Json>, names: map<Key, Json>, segments: map<Key, Json>)
    requires Join(details, names, segments).Success?
    ensures |Join(details, names, segments).value| == |Selected(details)|
    ensures forall i :: 0 <= i < |Selected(details)| ==>
              Row(Selected(details)[i], names, segments) == Success(Some(Join(details, names, segments).value[i]))
    decreases |details|
  {
    if |details| > 0 {
      var n := |details|;
      var pre := details[..n - 1];
      var last := details[n - 1];
      JoinSelects(pre, names, segments);
      var out' := Join(pre, names, segments).value;
      var row := Row(last, names, segments);
      assert row.Success?;
      if row.value.Some? {
        assert Kept(last);
        assert Selected(details) == Selected(pre) + [last];
        assert Join(details, names, segments).value == out' + [row.value.value];
      } else {
        assert !Kept(last);
        assert Selected(details) == Selected(pre);
        assert Join(details, names, segments).value == out';
      }
    }
  }
}
