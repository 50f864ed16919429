/** What a fan-out promises: the result has the input's shape, slot by slot or key by
    key; any failing branch fails the whole fan-out; a synchronous throw decides the
    error; nested raw arrays and objects are never run. */
module FanOutProperties {
  import opened Values
  import opened Semantics

  /** The first walk pushes a settlement for every entry from i on exactly when no entry
      from i on throws synchronously, and then slot k - i is the settlement of entry k. */
  lemma {:induction false} CollectPushed(w: Callables, shape: Value, arg: Value, i: nat)
    requires i <= Size(shape)
    ensures Collect(w, shape, arg, i).Pushed? <==>
              forall k :: i <= k < Size(shape) ==> !Slot(w, Member(shape, k), arg).Threw?
    ensures Collect(w, shape, arg, i).Pushed? ==>
              forall k :: i <= k < Size(shape) ==>
                Collect(w, shape, arg, i).slots[k - i] == Settle(Slot(w, Member(shape, k), arg))
    decreases Size(shape) - i
  {
    if i < Size(shape) {
      CollectPushed(w, shape, arg, i + 1);
    }
  }

  /** When the first walk aborts, it aborts at the first entry that throws, with that
      entry's error. */
  lemma {:induction false} CollectAborted(w: Callables, shape: Value, arg: Value, i: nat)
    requires i <= Size(shape)
    ensures Collect(w, shape, arg, i).Aborted? ==>
              var at := Collect(w, shape, arg, i).at;
              && Slot(w, Member(shape, at), arg) == Threw(Collect(w, shape, arg, i).error)
              && forall k :: i <= k < at ==> !Slot(w, Member(shape, k), arg).Threw?
    decreases Size(shape) - i
  {
    if i < Size(shape) {
      CollectAborted(w, shape, arg, i + 1);
    }
  }

  /** Array fan-out succeeds with `r` exactly when `r` is an array of the input's length
      whose slot k holds what entry k (called with the shared argument, or copied)
      fulfilled with. */
  lemma ArrayFanOut(w: Callables, items: seq<Value>, arg: Value, r: Value)
    ensures FanOutOutcome(w, Arr(items), arg) == Ok(r) <==>
              r.Arr? && |r.items| == |items| &&
              forall k :: 0 <= k < |items| ==> Slot(w, items[k], arg) == Returned(r.items[k])
  {
    var shape := Arr(items);
    CollectPushed(w, shape, arg, 0);
    assert forall k :: 0 <= k < |items| ==> Member(shape, k) == items[k];
    var walk := Collect(w, shape, arg, 0);
    if FanOutOutcome(w, shape, arg) == Ok(r) {
      assert walk.Pushed?;
      var vals := Join(walk.slots).value;
      assert r == Arr(vals);
      forall k | 0 <= k < |items| ensures Slot(w, items[k], arg) == Returned(r.items[k]) {
        assert walk.slots[k] == Settle(Slot(w, items[k], arg)) == Ok(vals[k]);
      }
    }
    if r.Arr? && |r.items| == |items| && forall k :: 0 <= k < |items| ==> Slot(w, items[k], arg) == Returned(r.items[k]) {
      assert forall k :: 0 <= k < |walk.slots| ==> walk.slots[k] == Ok(r.items[k]);
      assert Join(walk.slots).value == r.items;
    }
  }

  /** Object fan-out succeeds with `r` exactly when `r` is an object with the input's
      keys in the input's order, the key at position k bound to what the entry under
      that key fulfilled with. */
  lemma ObjectFanOut(w: Callables, entries: seq<(string, Value)>, arg: Value, r: Value)
    ensures FanOutOutcome(w, Obj(entries), arg) == Ok(r) <==> Rekeyed(w, entries, arg, r)
  {
    if FanOutOutcome(w, Obj(entries), arg) == Ok(r) {
      ObjectFanOutSound(w, entries, arg, r);
    }
    if Rekeyed(w, entries, arg, r) {
      ObjectFanOutComplete(w, entries, arg, r);
    }
  }

  /** `r` is an object with the keys of `entries` in their order, the key at position k
      bound to what the entry at position k fulfilled with. */
  ghost predicate Rekeyed(w: Callables, entries: seq<(string, Value)>, arg: Value, r: Value) {
    r.Obj? && |r.entries| == |entries| &&
    forall k :: 0 <= k < |entries| ==>
      r.entries[k].0 == entries[k].0 && Slot(w, entries[k].1, arg) == Returned(r.entries[k].1)
  }

  lemma ObjectFanOutSound(w: Callables, entries: seq<(string, Value)>, arg: Value, r: Value)
    requires FanOutOutcome(w, Obj(entries), arg) == Ok(r)
    ensures Rekeyed(w, entries, arg, r)
  {
    var shape := Obj(entries);
    CollectPushed(w, shape, arg, 0);
    var walk := Collect(w, shape, arg, 0);
    assert walk.Pushed?;
    var vals := Join(walk.slots).value;
    assert r == Rebuild(shape, vals);
    forall k | 0 <= k < |entries|
      ensures r.entries[k].0 == entries[k].0 && Slot(w, entries[k].1, arg) == Returned(r.entries[k].1)
    {
      assert Member(shape, k) == entries[k].1;
      assert walk.slots[k] == Settle(Slot(w, entries[k].1, arg)) == Ok(vals[k]);
    }
  }

  lemma ObjectFanOutComplete(w: Callables, entries: seq<(string, Value)>, arg: Value, r: Value)
    requires Rekeyed(w, entries, arg, r)
    ensures FanOutOutcome(w, Obj(entries), arg) == Ok(r)
  {
    var shape := Obj(entries);
    CollectPushed(w, shape, arg, 0);
    assert forall k :: 0 <= k < |entries| ==> Member(shape, k) == entries[k].1;
    var walk := Collect(w, shape, arg, 0);
    var vals := seq(|entries|, k requires 0 <= k < |entries| => r.entries[k].1);
    assert forall k :: 0 <= k < |walk.slots| ==> walk.slots[k] == Ok(vals[k]);
    assert Join(walk.slots).value == vals;
    assert Rebuild(shape, vals) == r;
  }

  /** The value stored under `key` in an object's entries (the first such entry). */
  function Lookup(entries: seq<(string, Value)>, key: string): (r: Option<Value>)
    ensures r.Some? <==> exists k :: 0 <= k < |entries| && entries[k].0 == key
    ensures r.Some? ==> exists k :: 0 <= k < |entries| && entries[k] == (key, r.value)
  {
    if |entries| == 0 then None
    else if entries[0].0 == key then Some(entries[0].1)
    else
      var r := Lookup(entries[1..], key);
      assert forall k :: 0 <= k < |entries| - 1 ==> entries[1..][k] == entries[k + 1];
      r
  }

  /** Looking up a key in a rekeyed object finds the value at the position where the
      input has that key. */
  lemma {:induction false} LookupRekeyed(entries: seq<(string, Value)>, out: seq<(string, Value)>, key: string)
    requires |out| == |entries|
    requires forall k :: 0 <= k < |entries| ==> out[k].0 == entries[k].0
    ensures Lookup(out, key).Some? <==> Lookup(entries, key).Some?
    ensures Lookup(entries, key).Some? ==>
              exists k :: 0 <= k < |entries| && entries[k] == (key, Lookup(entries, key).value) &&
                          out[k] == (key, Lookup(out, key).value)
    decreases |entries|
  {
    if |entries| > 0 && entries[0].0 != key {
      LookupRekeyed(entries[1..], out[1..], key);
      if Lookup(entries, key).Some? {
        var k :| 0 <= k < |entries| - 1 && entries[1..][k] == (key, Lookup(entries, key).value) &&
                 out[1..][k] == (key, Lookup(out, key).value);
        assert entries[k + 1] == (key, Lookup(entries, key).value);
      }
    }
  }

  /** Key view of an object fan-out: the result has a key exactly when the input has it,
      and under each key holds what the input's entry under that key fulfilled with. */
  lemma ObjectFanOutByKey(w: Callables, entries: seq<(string, Value)>, arg: Value, r: Value, key: string)
    requires FanOutOutcome(w, Obj(entries), arg) == Ok(r)
    ensures r.Obj?
    ensures Lookup(r.entries, key).Some? <==> Lookup(entries, key).Some?
    ensures Lookup(entries, key).Some? ==>
              Slot(w, Lookup(entries, key).value, arg) == Returned(Lookup(r.entries, key).value)
  {
    ObjectFanOut(w, entries, arg, r);
    LookupRekeyed(entries, r.entries, key);
  }

  /** A fan-out fails exactly when its shape is not walkable (`null`) or some entry fails,
      by a synchronous throw or a rejection; the error is then that of a failing entry. */
  lemma FanOutFails(w: Callables, shape: Value, arg: Value)
    ensures FanOutOutcome(w, shape, arg).Err? <==>
              !(shape.Arr? || shape.Obj?) ||
              exists k :: 0 <= k < Size(shape) && !Slot(w, Member(shape, k), arg).Returned?
    ensures FanOutOutcome(w, shape, arg).Err? && (shape.Arr? || shape.Obj?) ==>
              exists k :: 0 <= k < Size(shape) && !Slot(w, Member(shape, k), arg).Returned? &&
                          Slot(w, Member(shape, k), arg).error == FanOutOutcome(w, shape, arg).error
    ensures !(shape.Arr? || shape.Obj?) ==> FanOutOutcome(w, shape, arg) == Err(NotIterable)
  {
    if shape.Arr? || shape.Obj? {
      CollectPushed(w, shape, arg, 0);
      CollectAborted(w, shape, arg, 0);
      var walk := Collect(w, shape, arg, 0);
      if walk.Pushed? {
        if exists k :: 0 <= k < Size(shape) && !Slot(w, Member(shape, k), arg).Returned? {
          var k :| 0 <= k < Size(shape) && !Slot(w, Member(shape, k), arg).Returned?;
          assert !walk.slots[k].Ok?;
        }
        if Join(walk.slots).Err? {
          var k :| 0 <= k < |walk.slots| && walk.slots[k] == Err(Join(walk.slots).error);
          assert !Slot(w, Member(shape, k), arg).Returned?;
        }
      }
    }
  }

  /** A synchronous throw at entry k, with none before it, decides the fan-out: it fails
      with exactly that error, whatever the other entries would do. */
  lemma SyncThrowDecides(w: Callables, shape: Value, arg: Value, k: nat)
    requires shape.Arr? || shape.Obj?
    requires k < Size(shape) && Slot(w, Member(shape, k), arg).Threw?
    requires forall j :: 0 <= j < k ==> !Slot(w, Member(shape, j), arg).Threw?
    ensures FanOutOutcome(w, shape, arg) == Err(Slot(w, Member(shape, k), arg).error)
  {
    CollectPushed(w, shape, arg, 0);
    CollectAborted(w, shape, arg, 0);
    var at := Collect(w, shape, arg, 0).at;
    assert !(at < k) && !(k < at);
  }

  /** A nested array or object entry is not run: its slot is the fan-out closure itself,
      and a plain value is copied as it is. */
  lemma UncalledEntries(w: Callables, v: Value, arg: Value)
    ensures Type(v) == ArrayType || Type(v) == ObjectType ==> Slot(w, v, arg) == Returned(FanOut(v))
    ensures Type(v) != ArrayType && Type(v) != ObjectType && Type(v) != FunctionType ==>
              Slot(w, v, arg) == Returned(v)
  {
  }

  /** A shape without function entries calls nothing: its fan-out is the same whatever
      the caller's functions do and whatever argument it receives. */
  lemma NoFunctionNoCalls(w1: Callables, w2: Callables, shape: Value, arg1: Value, arg2: Value)
    requires forall k :: 0 <= k < Size(shape) ==> Type(Member(shape, k)) != FunctionType
    ensures FanOutOutcome(w1, shape, arg1) == FanOutOutcome(w2, shape, arg2)
  {
    WalkWithoutCalls(w1, w2, shape, arg1, arg2, 0);
  }

  lemma {:induction false} WalkWithoutCalls(w1: Callables, w2: Callables, shape: Value, arg1: Value, arg2: Value, i: nat)
    requires i <= Size(shape)
    requires forall k :: 0 <= k < Size(shape) ==> Type(Member(shape, k)) != FunctionType
    ensures Collect(w1, shape, arg1, i) == Collect(w2, shape, arg2, i)
    decreases Size(shape) - i
  {
    if i < Size(shape) {
      var v := Member(shape, i);
      assert Slot(w1, v, arg1) == Slot(w2, v, arg2) by {
        UncalledEntries(w1, v, arg1);
        UncalledEntries(w2, v, arg2);
      }
      WalkWithoutCalls(w1, w2, shape, arg1, arg2, i + 1);
      CollectStep(w1, shape, arg1, i);
      CollectStep(w2, shape, arg2, i);
    }
  }

  /** A nested pipeline entry that fails makes the whole fan-out fail. */
  lemma NestedPipelineFailurePropagates(w: Callables, shape: Value, arg: Value, k: nat)
    requires shape.Arr? || shape.Obj?
    requires k < Size(shape) && Member(shape, k).Pipeline?
    requires SeriesOutcome(w, Member(shape, k).steps, arg).Err?
    ensures FanOutOutcome(w, shape, arg).Err?
  {
    FanOutFails(w, shape, arg);
    assert !Slot(w, Member(shape, k), arg).Returned?;
  }
}
