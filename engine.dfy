/** The pipeline engine of index.js: step classification, the series runner, the
    fan-out runner and the public `Po` constructor with its then/catch wrapper. */
module Engine {
  import opened Values
  import opened Semantics

  /** `resolve(v)`: an array or object (including `null`, whose `typeof` is 'object')
      is compiled once into a fan-out closure; every other value is kept as it is. */
  function Resolve(v: Value): (r: Value)
    ensures Type(v) == ArrayType || Type(v) == ObjectType ==> r == FanOut(v)
    ensures Type(v) != ArrayType && Type(v) != ObjectType ==> r == v
    ensures Type(r) != ArrayType && Type(r) != ObjectType
    ensures Falsy(r) <==> Falsy(v) && v != Null
  {
    match Type(v)
    case ObjectType => FanOut(v)
    case ArrayType => FanOut(v)
    case _ => v
  }

  /** `fn(prev)` for whatever `fn` is. */
  method Call(w: Callables, callee: Value, arg: Value) returns (reply: Reply)
    ensures reply == CallReply(w, callee, arg)
    decreases callee, 0
  {
    match callee
    case Fn(id) =>
      reply := w(id, arg);
    case Pipeline(steps) =>
      var o, _ := Series(w, steps, arg);
      reply := Defer(o);
    case FanOut(shape) =>
      var o, _ := Parallel(w, shape, arg);
      reply := Defer(o);
    case _ =>
      reply := Threw(NotAFunction(callee));
  }

  /** `series(pipeline, arg)`. Besides the settlement it returns `fed`: the argument each
      invoked step received, in invocation order (so `|fed|` steps were invoked). */
  method Series(w: Callables, pipeline: seq<Value>, arg: Value) returns (o: Result<Value>, fed: seq<Value>)
    ensures o == SeriesOutcome(w, pipeline, arg)
    ensures |fed| <= |pipeline|
    ensures forall k :: 0 <= k < |fed| ==> !Falsy(pipeline[k])
    ensures |fed| > 0 ==> fed[0] == arg
    ensures forall k :: 0 <= k < |fed| - 1 ==> Settle(CallReply(w, pipeline[k], fed[k])) == Ok(fed[k + 1])
    ensures o.Err? ==> |fed| > 0 && Settle(CallReply(w, pipeline[|fed| - 1], fed[|fed| - 1])) == o
    ensures o.Ok? ==> |fed| == |pipeline| || Falsy(pipeline[|fed|])
    ensures o.Ok? && |fed| == 0 ==> o.value == arg
    ensures o.Ok? && |fed| > 0 ==> Settle(CallReply(w, pipeline[|fed| - 1], fed[|fed| - 1])) == o
    decreases pipeline
  {
    var i := 0;
    var prev := arg;
    fed := [];
    while i < |pipeline| && !Falsy(pipeline[i])
      invariant 0 <= i <= |pipeline| && |fed| == i
      invariant SeriesOutcome(w, pipeline, arg) == SeriesOutcome(w, pipeline[i..], prev)
      invariant forall k :: 0 <= k < i ==> !Falsy(pipeline[k])
      invariant i == 0 ==> prev == arg
      invariant i > 0 ==> fed[0] == arg && Settle(CallReply(w, pipeline[i - 1], fed[i - 1])) == Ok(prev)
      invariant forall k :: 0 <= k < i - 1 ==> Settle(CallReply(w, pipeline[k], fed[k])) == Ok(fed[k + 1])
    {
      fed := fed + [prev];
      var reply := Call(w, pipeline[i], prev);
      match Settle(reply)
      case Err(e) =>
        o := Err(e);
        return;
      case Ok(v) =>
        prev := v;
      i := i + 1;
    }
    o := Ok(prev);
  }

  /** `parallel(shape)(arg)`. Besides the settlement it returns `walked`: how many entries
      the first walk visited before it finished or a call threw synchronously. */
  method Parallel(w: Callables, shape: Value, arg: Value) returns (o: Result<Value>, walked: nat)
    ensures o == FanOutOutcome(w, shape, arg)
    ensures walked <= Size(shape)
    ensures forall k :: 0 <= k < walked - 1 ==> !Slot(w, Member(shape, k), arg).Threw?
    ensures walked > 0 && Slot(w, Member(shape, walked - 1), arg).Threw? ==>
              o == Err(Slot(w, Member(shape, walked - 1), arg).error)
    ensures walked < Size(shape) ==> walked > 0 && Slot(w, Member(shape, walked - 1), arg).Threw?
    decreases shape, 2
  {
    if !(shape.Arr? || shape.Obj?) {
      return Err(NotIterable), 0;
    }
    var walk := PushAll(w, shape, arg);
    if walk.Aborted? {
      return Err(walk.error), walk.at + 1;
    }
    walked := Size(shape);
    var joined := Join(walk.slots);
    if joined.Err? {
      return Err(joined.error), walked;
    }
    if shape.Arr? {
      return Ok(Arr(joined.value)), walked;
    }
    var out := Rekey(shape.entries, joined.value);
    assert out == Rebuild(shape, joined.value).entries;
    o := Ok(Obj(out));
  }

  /** The first `foreach` of `parallel`: push, entry by entry, what each entry yields; a
      synchronous throw aborts the walk (it escapes the promise executor). */
  method PushAll(w: Callables, shape: Value, arg: Value) returns (walk: Walk)
    requires shape.Arr? || shape.Obj?
    ensures walk == Collect(w, shape, arg, 0)
    ensures walk.Aborted? ==> walk.at < Size(shape) && Slot(w, Member(shape, walk.at), arg) == Threw(walk.error)
    ensures walk.Aborted? ==> forall k :: 0 <= k < walk.at ==> !Slot(w, Member(shape, k), arg).Threw?
    ensures walk.Pushed? ==> |walk.slots| == Size(shape)
    ensures walk.Pushed? ==> forall k :: 0 <= k < Size(shape) ==>
              !Slot(w, Member(shape, k), arg).Threw? && walk.slots[k] == Settle(Slot(w, Member(shape, k), arg))
    decreases shape, 1
  {
    var a: seq<Result<Value>> := [];
    var i := 0;
    while i < Size(shape)
      invariant 0 <= i <= Size(shape) && |a| == i
      invariant Collect(w, shape, arg, 0) == Prefixed(a, Collect(w, shape, arg, i))
      invariant forall k :: 0 <= k < i ==> !Slot(w, Member(shape, k), arg).Threw?
      invariant forall k :: 0 <= k < i ==> a[k] == Settle(Slot(w, Member(shape, k), arg))
    {
      var r := Push(w, Member(shape, i), arg);
      CollectStep(w, shape, arg, i);
      if !r.Threw? {
        PrefixedTwice(a, [Settle(r)], Collect(w, shape, arg, i + 1));
      }
      if r.Threw? {
        return Aborted(i, r.error);
      }
      a := a + [Settle(r)];
      i := i + 1;
    }
    walk := Pushed(a);
  }

  /** The `switch` inside the first walk: what one entry pushes. */
  method Push(w: Callables, v: Value, arg: Value) returns (r: Reply)
    ensures r == Slot(w, v, arg)
    decreases v, 1
  {
    match Type(v)
    case FunctionType =>
      r := Call(w, v, arg);
    case ArrayType =>
      r := Returned(FanOut(v));
    case ObjectType =>
      r := Returned(FanOut(v));
    case _ =>
      r := Returned(v);
  }

  /** The second `foreach` of `parallel` on an object: `out[k] = val[i++]`. */
  method Rekey(entries: seq<(string, Value)>, val: seq<Value>) returns (out: seq<(string, Value)>)
    requires |val| == |entries|
    ensures |out| == |entries|
    ensures forall k :: 0 <= k < |entries| ==> out[k] == (entries[k].0, val[k])
  {
    out := [];
    var i := 0;
    while i < |entries|
      invariant 0 <= i <= |entries| && |out| == i
      invariant forall k :: 0 <= k < i ==> out[k] == (entries[k].0, val[k])
    {
      out := out + [(entries[i].0, val[i])];
      i := i + 1;
    }
  }

  /** `Po(...)`: resolve every argument once; the result is the `po` closure over them. */
  function Po(args: seq<Value>): (po: Value)
    ensures po.Pipeline? && |po.steps| == |args|
    ensures Type(po) == FunctionType
    ensures forall i :: 0 <= i < |args| ==> po.steps[i] == Resolve(args[i])
  {
    Pipeline(seq(|args|, i requires 0 <= i < |args| => Resolve(args[i])))
  }

  /** The object `po(arg)` returns: a pipeline and the single argument it was given. */
  datatype Thenable = Thenable(pipeline: seq<Value>, arg: Value)

  /** `po(...)`: only the first argument is kept (undefined when there is none); nothing
      runs until a continuation is registered. */
  function Invoke(po: Value, args: seq<Value>): (t: Thenable)
    requires po.Pipeline?
    ensures t.pipeline == po.steps
    ensures |args| > 0 ==> t.arg == args[0]
    ensures |args| == 0 ==> t.arg == Undefined
  {
    Thenable(po.steps, if |args| > 0 then args[0] else Undefined)
  }

  /** `then(resolve, reject)`: a fresh series run; its settlement is handed to the callbacks. */
  method Then(w: Callables, t: Thenable) returns (settled: Result<Value>)
    ensures settled == SeriesOutcome(w, t.pipeline, t.arg)
  {
    var fed;
    settled, fed := Series(w, t.pipeline, t.arg);
  }

  /** `catch(reject)`: a fresh series run; the callback sees the error exactly when it fails. */
  method Catch(w: Callables, t: Thenable) returns (caught: Option<Error>)
    ensures caught.Some? <==> SeriesOutcome(w, t.pipeline, t.arg).Err?
    ensures caught.Some? ==> SeriesOutcome(w, t.pipeline, t.arg) == Err(caught.value)
  {
    var settled, _ := Series(w, t.pipeline, t.arg);
    caught := if settled.Err? then Some(settled.error) else None;
  }
}
