/** What a series run promises: ordered threading of values, the stop at the first
    falsy entry, and the stop at the first failing step. */
module SeriesProperties {
  import opened Values
  import opened Semantics

  /** Every entry of the pipeline is truthy, so `series` consults all of them. */
  predicate AllTruthy(steps: seq<Value>) {
    forall k :: 0 <= k < |steps| ==> !Falsy(steps[k])
  }

  /** A run over `p` followed by `rest`: carry on with `rest` from the value `p` produced. */
  function AndThen(w: Callables, o: Result<Value>, rest: seq<Value>): Result<Value> {
    match o
    case Ok(v) => SeriesOutcome(w, rest, v)
    case Err(e) => Err(e)
  }

  /** Step 0 receives `arg`, step k+1 receives exactly step k's value, and a run in
      which steps 0..n-1 all succeed settles with the last step's value; if instead
      step n fails, the run fails with that step's error, unmodified, whatever follows. */
  lemma {:induction false} Threading(w: Callables, steps: seq<Value>, vals: seq<Value>, n: nat)
    requires n <= |steps| && |vals| == n + 1
    requires forall k :: 0 <= k < n ==> !Falsy(steps[k]) && Settle(CallReply(w, steps[k], vals[k])) == Ok(vals[k + 1])
    ensures n == |steps| ==> SeriesOutcome(w, steps, vals[0]) == Ok(vals[n])
    ensures n < |steps| && !Falsy(steps[n]) && Settle(CallReply(w, steps[n], vals[n])).Err? ==>
              SeriesOutcome(w, steps, vals[0]) == Settle(CallReply(w, steps[n], vals[n]))
    ensures n < |steps| && Falsy(steps[n]) ==> SeriesOutcome(w, steps, vals[0]) == Ok(vals[n])
    decreases n
  {
    if n > 0 {
      Threading(w, steps[1..], vals[1..], n - 1);
    }
  }

  /** Running two pipelines back to back is running their concatenation, provided the
      first has no falsy entry that would stop the run early. */
  lemma {:induction false} SeriesAppend(w: Callables, p: seq<Value>, rest: seq<Value>, x: Value)
    requires AllTruthy(p)
    ensures SeriesOutcome(w, p + rest, x) == AndThen(w, SeriesOutcome(w, p, x), rest)
    decreases p
  {
    if |p| > 0 {
      assert (p + rest)[0] == p[0];
      assert (p + rest)[1..] == p[1..] + rest;
      match Settle(CallReply(w, p[0], x))
      case Err(_) =>
      case Ok(v) => SeriesAppend(w, p[1..], rest, v);
    } else {
      assert p + rest == rest;
    }
  }

  /** Once a run fails, no entry after the failing step is consulted: appending any
      entries leaves the failure as it is. */
  lemma {:induction false} FailureShortCircuits(w: Callables, p: seq<Value>, rest: seq<Value>, x: Value)
    requires SeriesOutcome(w, p, x).Err?
    ensures SeriesOutcome(w, p + rest, x) == SeriesOutcome(w, p, x)
    decreases p
  {
    assert |p| > 0 && !Falsy(p[0]);
    assert (p + rest)[0] == p[0];
    assert (p + rest)[1..] == p[1..] + rest;
    match Settle(CallReply(w, p[0], x))
    case Err(_) =>
    case Ok(v) => FailureShortCircuits(w, p[1..], rest, v);
  }

  /** A falsy entry ends the run with the current value: the run over the whole
      pipeline is the run over the entries before it, and an empty prefix gives back
      the argument unchanged. */
  lemma {:induction false} FalsyStops(w: Callables, p: seq<Value>, k: nat, x: Value)
    requires k < |p| && Falsy(p[k])
    ensures SeriesOutcome(w, p, x) == SeriesOutcome(w, p[..k], x)
    ensures k == 0 ==> SeriesOutcome(w, p, x) == Ok(x)
    decreases k
  {
    if k > 0 && !Falsy(p[0]) {
      assert p[..k][0] == p[0];
      assert p[..k][1..] == p[1..][..k - 1];
      match Settle(CallReply(w, p[0], x))
      case Err(_) =>
      case Ok(v) => FalsyStops(w, p[1..], k - 1, v);
    }
  }

  /** The calls still to come after a run over a prefix: those of `rest` run from the
      prefix's value if it fulfils, and none if it fails. */
  function TraceAndThen(w: Callables, o: Result<Value>, rest: seq<Value>): seq<(nat, Value)> {
    match o
    case Ok(v) => Trace(w, rest, v)
    case Err(_) => []
  }

  /** The calls of a run over `p + rest`, where `p` has no falsy entry, are the calls of
      the run over `p` followed by those of `rest` run from its value. */
  lemma {:induction false} TraceAppend(w: Callables, p: seq<Value>, rest: seq<Value>, x: Value)
    requires AllTruthy(p)
    ensures Trace(w, p + rest, x) == Trace(w, p, x) + TraceAndThen(w, SeriesOutcome(w, p, x), rest)
    decreases p
  {
    if |p| > 0 {
      assert (p + rest)[0] == p[0];
      assert (p + rest)[1..] == p[1..] + rest;
      match Settle(CallReply(w, p[0], x))
      case Err(_) =>
      case Ok(v) =>
        TraceAppend(w, p[1..], rest, v);
        var head := CallTrace(w, p[0], x);
        assert head + (Trace(w, p[1..], v) + TraceAndThen(w, SeriesOutcome(w, p[1..], v), rest)) ==
               (head + Trace(w, p[1..], v)) + TraceAndThen(w, SeriesOutcome(w, p[1..], v), rest);
    } else {
      assert p + rest == rest;
    }
  }

  /** A pipeline of the caller's own functions that all fulfil along a chain of values
      calls step k with value k, once each, in order. */
  lemma {:induction false} TraceOfChain(w: Callables, steps: seq<Value>, vals: seq<Value>)
    requires |vals| == |steps| + 1
    requires forall k :: 0 <= k < |steps| ==> steps[k].Fn? && w(steps[k].id, vals[k]) == Returned(vals[k + 1])
    ensures |Trace(w, steps, vals[0])| == |steps|
    ensures forall k :: 0 <= k < |steps| ==> Trace(w, steps, vals[0])[k] == (steps[k].id, vals[k])
    decreases steps
  {
    if |steps| > 0 {
      TraceOfChain(w, steps[1..], vals[1..]);
      var t := Trace(w, steps, vals[0]);
      assert t == [(steps[0].id, vals[0])] + Trace(w, steps[1..], vals[1]);
      forall k | 0 <= k < |steps|
        ensures t[k] == (steps[k].id, vals[k])
      {
        if k > 0 {
          assert t[k] == Trace(w, steps[1..], vals[1..][0])[k - 1];
        }
      }
    }
  }

  /** A truthy entry that is not a function (a number, a string, `true`) is still
      called, and the run fails with the TypeError of that call. */
  lemma NotCallableStepFails(w: Callables, p: seq<Value>, x: Value)
    requires |p| > 0 && !Falsy(p[0]) && Type(p[0]) != FunctionType
    ensures SeriesOutcome(w, p, x) == Err(NotAFunction(p[0]))
  {
  }
}
