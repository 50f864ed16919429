/** The meaning of running a pipeline, as functions: what a call to each kind of
    function value settles to, what a series run over resolved steps settles to, and
    what a fan-out over an array or object settles to. Promises are abstracted to
    their settlement; the engine's methods are proved to compute exactly these. */
module Semantics {
  import opened Values

  /** The behaviour of the caller's own functions: given a function's identity and its
      single argument, what the call does. A deterministic stand-in for arbitrary code. */
  type Callables = (nat, Value) -> Reply

  /** `Promise.resolve(r)` followed by then/catch: a synchronous throw and a rejection
      both settle as a failure carrying the same error. */
  function Settle(r: Reply): (o: Result<Value>)
    ensures o.Ok? <==> r.Returned?
    ensures o.Ok? ==> o.value == r.value
    ensures o.Err? ==> o.error == r.error
  {
    match r
    case Returned(v) => Ok(v)
    case Threw(e) => Err(e)
    case Rejected(e) => Err(e)
  }

  /** A call that hands back a promise: it never throws synchronously. */
  function Defer(o: Result<Value>): (r: Reply)
    ensures !r.Threw?
    ensures Settle(r) == o
  {
    match o
    case Ok(v) => Returned(v)
    case Err(e) => Rejected(e)
  }

  /** Number of entries `foreach` walks in a fan-out shape. */
  function Size(shape: Value): nat {
    match shape
    case Arr(items) => |items|
    case Obj(entries) => |entries|
    case _ => 0
  }

  /** The i-th entry `foreach` visits: the i-th item of an array, or the value under
      the i-th key of an object. */
  function Member(shape: Value, i: nat): Value
    requires i < Size(shape)
  {
    match shape
    case Arr(items) => items[i]
    case Obj(entries) => entries[i].1
  }

  /** The result of `fn(prev)` for every kind of value `fn`. A `po` closure returns a
      thenable that runs its pipeline; a fan-out closure returns the promise of its
      fan-out; anything else is not a function and the call throws a TypeError. */
  function CallReply(w: Callables, callee: Value, arg: Value): Reply
    decreases callee, 0
  {
    match callee
    case Fn(id) => w(id, arg)
    case Pipeline(steps) => Defer(SeriesOutcome(w, steps, arg))
    case FanOut(shape) => Defer(FanOutOutcome(w, shape, arg))
    case _ => Threw(NotAFunction(callee))
  }

  /** `series(pipeline, arg)`: stop with the current value at the first falsy entry
      (or past the end), stop with the error of the first step that fails, and
      otherwise feed each step's value to the next step. */
  function SeriesOutcome(w: Callables, steps: seq<Value>, arg: Value): Result<Value>
    decreases steps
  {
    if |steps| == 0 || Falsy(steps[0]) then Ok(arg)
    else
      match Settle(CallReply(w, steps[0], arg))
      case Err(e) => Err(e)
      case Ok(v) => SeriesOutcome(w, steps[1..], v)
  }

  /** The caller's functions that a call to `callee` invokes, in order, each with the
      argument it receives: a caller's function is one call; a nested pipeline is its
      own series trace, since the outer run waits for it before going on. A fan-out
      contributes no entries: its nested runs interleave by timing. */
  function CallTrace(w: Callables, callee: Value, arg: Value): seq<(nat, Value)>
    decreases callee, 0
  {
    match callee
    case Fn(id) => [(id, arg)]
    case Pipeline(steps) => Trace(w, steps, arg)
    case _ => []
  }

  /** The calls a series run makes, in order: those of each consulted step, up to the
      first falsy entry or the first failing step (whose own calls are included). */
  function Trace(w: Callables, steps: seq<Value>, arg: Value): seq<(nat, Value)>
    decreases steps
  {
    if |steps| == 0 || Falsy(steps[0]) then []
    else
      CallTrace(w, steps[0], arg) +
      match Settle(CallReply(w, steps[0], arg))
      case Err(_) => []
      case Ok(v) => Trace(w, steps[1..], v)
  }

  /** What one entry of a fan-out pushes onto the list: a function is called with the
      shared argument, a nested array or object becomes its fan-out closure WITHOUT being
      called, and any other value is pushed as it is. */
  function Slot(w: Callables, v: Value, arg: Value): Reply
    decreases v, 1
  {
    match Type(v)
    case FunctionType => CallReply(w, v, arg)
    case ArrayType => Returned(FanOut(v))
    case ObjectType => Returned(FanOut(v))
    case _ => Returned(v)
  }

  /** The first walk of a fan-out from entry i on: either a call threw synchronously
      (the promise executor aborts there), or every entry pushed a settlement. */
  datatype Walk = Aborted(at: nat, error: Error) | Pushed(slots: seq<Result<Value>>)

  function Collect(w: Callables, shape: Value, arg: Value, i: nat): (r: Walk)
    requires i <= Size(shape)
    ensures r.Pushed? ==> |r.slots| == Size(shape) - i
    ensures r.Aborted? ==> i <= r.at < Size(shape)
    decreases shape, 1, Size(shape) - i
  {
    if i == Size(shape) then Pushed([])
    else
      match Slot(w, Member(shape, i), arg)
      case Threw(e) => Aborted(i, e)
      case r =>
        match Collect(w, shape, arg, i + 1)
        case Aborted(j, e) => Aborted(j, e)
        case Pushed(rest) => Pushed([Settle(r)] + rest)
  }

  /** The first walk as seen from entry 0, given the slots already pushed before i. */
  function Prefixed(done: seq<Result<Value>>, rest: Walk): Walk {
    match rest
    case Aborted(j, e) => Aborted(j, e)
    case Pushed(slots) => Pushed(done + slots)
  }

  lemma CollectStep(w: Callables, shape: Value, arg: Value, i: nat)
    requires i < Size(shape)
    ensures Collect(w, shape, arg, i) ==
      if Slot(w, Member(shape, i), arg).Threw? then Aborted(i, Slot(w, Member(shape, i), arg).error)
      else Prefixed([Settle(Slot(w, Member(shape, i), arg))], Collect(w, shape, arg, i + 1))
  {
  }

  lemma PrefixedTwice(a: seq<Result<Value>>, b: seq<Result<Value>>, rest: Walk)
    ensures Prefixed(a, Prefixed(b, rest)) == Prefixed(a + b, rest)
  {
    if rest.Pushed? {
      assert a + (b + rest.slots) == (a + b) + rest.slots;
    }
  }

  /** `Promise.all`: fulfils with every value, in slot order, when every slot fulfils;
      otherwise rejects with the error of a rejected slot. Which one depends on timing
      in the runtime; this definition picks the lowest such slot. */
  function Join(slots: seq<Result<Value>>): (r: Result<seq<Value>>)
    ensures r.Ok? <==> forall i :: 0 <= i < |slots| ==> slots[i].Ok?
    ensures r.Ok? ==> |r.value| == |slots| && forall i :: 0 <= i < |slots| ==> slots[i] == Ok(r.value[i])
    ensures r.Err? ==> exists i :: 0 <= i < |slots| && slots[i] == Err(r.error)
  {
    if |slots| == 0 then Ok([])
    else
      match slots[0]
      case Err(e) => Err(e)
      case Ok(v) =>
        match Join(slots[1..])
        case Err(e) => Err(e)
        case Ok(vs) => Ok([v] + vs)
  }

  /** The fan-out's result: the joined values themselves for an array, or an object with
      the input's keys in the input's order, the i-th key bound to the i-th value. */
  function Rebuild(shape: Value, vals: seq<Value>): Value
    requires shape.Arr? || shape.Obj?
    requires |vals| == Size(shape)
  {
    match shape
    case Arr(_) => Arr(vals)
    case Obj(entries) => Obj(seq(|entries|, i requires 0 <= i < |entries| => (entries[i].0, vals[i])))
  }

  /** The promise `parallel(shape)(arg)` returns. Only arrays, objects and `null` are
      ever wrapped by the engine; walking `null` (or any other non-array, non-object) is
      the TypeError `foreach` throws on the missing length. */
  function FanOutOutcome(w: Callables, shape: Value, arg: Value): Result<Value>
    decreases shape, 2
  {
    if !(shape.Arr? || shape.Obj?) then Err(NotIterable)
    else
      match Collect(w, shape, arg, 0)
      case Aborted(_, e) => Err(e)
      case Pushed(slots) =>
        match Join(slots)
        case Err(e) => Err(e)
        case Ok(vals) => Ok(Rebuild(shape, vals))
  }
}
