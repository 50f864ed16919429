/** How `Po` values compose: classification by `resolve`, a pipeline used as a step of
    another pipeline, and scenarios from the repository's tests. */
module Composition {
  import opened Values
  import opened Semantics
  import opened Engine
  import opened SeriesProperties
  import opened FanOutProperties

  /** Resolving twice is resolving once: a compiled step is a function and is kept. */
  lemma ResolveIdempotent(v: Value)
    ensures Resolve(Resolve(v)) == Resolve(v)
  {
  }

  /** A `Po` value is a function returning a thenable: used as a step it never throws
      synchronously, and it settles exactly as `then` on `po(x)` would. */
  lemma PoAsStep(w: Callables, args: seq<Value>, x: Value)
    ensures !CallReply(w, Po(args), x).Threw?
    ensures Settle(CallReply(w, Po(args), x)) ==
              SeriesOutcome(w, Invoke(Po(args), [x]).pipeline, Invoke(Po(args), [x]).arg)
  {
  }

  /** A nested pipeline without falsy entries runs as if its steps were written inline
      in the outer pipeline. */
  lemma InlineNested(w: Callables, inner: seq<Value>, rest: seq<Value>, x: Value)
    requires AllTruthy(inner)
    ensures SeriesOutcome(w, [Pipeline(inner)] + rest, x) == SeriesOutcome(w, inner + rest, x)
  {
    SeriesAppend(w, inner, rest, x);
    assert ([Pipeline(inner)] + rest)[0] == Pipeline(inner);
    assert ([Pipeline(inner)] + rest)[1..] == rest;
  }

  /** Inlining a nested pipeline without falsy entries also keeps its calls: the same
      caller's functions are called with the same arguments in the same order. */
  lemma TraceInline(w: Callables, inner: seq<Value>, rest: seq<Value>, x: Value)
    requires AllTruthy(inner)
    ensures Trace(w, [Pipeline(inner)] + rest, x) == Trace(w, inner + rest, x)
  {
    TraceAppend(w, inner, rest, x);
    assert ([Pipeline(inner)] + rest)[0] == Pipeline(inner);
    assert ([Pipeline(inner)] + rest)[1..] == rest;
  }

  /** The falsy stop ends only the innermost run: a nested pipeline that stops early
      hands its value on to the next outer step, which inlining would skip. */
  lemma InlineNeedsTruthy(w: Callables, x: Value)
    ensures SeriesOutcome(w, [Pipeline([Undefined]), Num(1)], x) == Err(NotAFunction(Num(1)))
    ensures SeriesOutcome(w, [Undefined, Num(1)], x) == Ok(x)
  {
    assert [Pipeline([Undefined]), Num(1)][1..] == [Num(1)];
  }

  /** `null` is an 'object' to `type`, so `Po(null)` holds a fan-out step over `null`,
      which fails when run; `Po(undefined)` holds a falsy step and gives its argument back. */
  lemma NullAndUndefinedSteps(w: Callables, x: Value)
    ensures SeriesOutcome(w, Po([Null]).steps, x) == Err(NotIterable)
    ensures SeriesOutcome(w, Po([Undefined]).steps, x) == Ok(x)
  {
    assert Po([Null]).steps == [FanOut(Null)];
    assert Po([Undefined]).steps == [Undefined];
  }

  /** The functions of the series composition test: `a` returns 'b', `b` returns 'c'. */
  function LetterSteps(id: nat, v: Value): Reply {
    if id == 0 then Returned(Str("b")) else Returned(Str("c"))
  }

  /** `Po(Po(a, b), a, b)('a')` settles with 'c', as the inlined chain `a, b, a, b` does. */
  lemma SeriesCompositionScenario()
    ensures SeriesOutcome(LetterSteps, Invoke(Po([Po([Fn(0), Fn(1)]), Fn(0), Fn(1)]), [Str("a")]).pipeline, Str("a")) ==
            SeriesOutcome(LetterSteps, [Fn(0), Fn(1), Fn(0), Fn(1)], Str("a"))
    ensures SeriesOutcome(LetterSteps, [Fn(0), Fn(1), Fn(0), Fn(1)], Str("a")) == Ok(Str("c"))
  {
    var w: Callables := LetterSteps;
    var inner := [Fn(0), Fn(1)];
    var steps := Po([Po(inner), Fn(0), Fn(1)]).steps;
    assert Po(inner) == Pipeline(inner);
    assert steps == [Pipeline(inner)] + [Fn(0), Fn(1)];
    InlineNested(w, inner, [Fn(0), Fn(1)], Str("a"));
    var chain := inner + [Fn(0), Fn(1)];
    var fed := [Str("a"), Str("b"), Str("c"), Str("b"), Str("c")];
    Threading(w, chain, fed, 4);
  }

  /** The same run calls `a`, `b`, `a`, `b` with 'a', 'b', 'c', 'b', in that order. */
  lemma SeriesCompositionTrace()
    ensures Trace(LetterSteps, Invoke(Po([Po([Fn(0), Fn(1)]), Fn(0), Fn(1)]), [Str("a")]).pipeline, Str("a")) ==
            [(0, Str("a")), (1, Str("b")), (0, Str("c")), (1, Str("b"))]
  {
    var inner := [Fn(0), Fn(1)];
    var rest := [Fn(0), Fn(1)];
    assert Po([Po(inner), Fn(0), Fn(1)]).steps == [Pipeline(inner)] + rest by {
      assert Po(inner) == Pipeline(inner);
    }
    TraceInline(LetterSteps, inner, rest, Str("a"));
    assert inner + rest == [Fn(0), Fn(1), Fn(0), Fn(1)];
    LetterChainTrace();
  }

  /** The inlined chain `a, b, a, b` run from 'a' calls its steps with 'a', 'b', 'c', 'b'. */
  lemma LetterChainTrace()
    ensures Trace(LetterSteps, [Fn(0), Fn(1), Fn(0), Fn(1)], Str("a")) ==
            [(0, Str("a")), (1, Str("b")), (0, Str("c")), (1, Str("b"))]
  {
    var chain := [Fn(0), Fn(1), Fn(0), Fn(1)];
    var fed := [Str("a"), Str("b"), Str("c"), Str("b"), Str("c")];
    TraceOfChain(LetterSteps, chain, fed);
    var t := Trace(LetterSteps, chain, Str("a"));
    assert t[0] == (0, Str("a")) && t[1] == (1, Str("b")) && t[2] == (0, Str("c")) && t[3] == (1, Str("b"));
  }

  /** The functions of the series error test: `a` and `b` fulfil, `c` rejects. */
  function FailingThird(id: nat, v: Value): Reply {
    if id == 0 then Returned(Str("a"))
    else if id == 1 then Returned(Str("b1"))
    else Rejected(Raised(Str("no ms present")))
  }

  /** `Po(a, b, c, d)('a')` fails with the error `c` rejected with, whatever `d` is:
      the step after the failing one is never consulted. */
  lemma SeriesErrorScenario(d: Value)
    ensures SeriesOutcome(FailingThird, [Fn(0), Fn(1), Fn(2), d], Str("a")) == Err(Raised(Str("no ms present")))
  {
    var p := [Fn(0), Fn(1), Fn(2)];
    assert SeriesOutcome(FailingThird, p, Str("a")) == Err(Raised(Str("no ms present"))) by {
      Threading(FailingThird, p, [Str("a"), Str("a"), Str("b1")], 2);
    }
    FailureShortCircuits(FailingThird, p, [d], Str("a"));
    assert p + [d] == [Fn(0), Fn(1), Fn(2), d];
  }

  /** The functions of the array test: each `to(ms)` fulfils with `ms`. */
  function Timers(id: nat, v: Value): Reply {
    Returned(Num(id))
  }

  /** `Po([to(50), to(150), to(100)])()` fulfils with [50, 150, 100]: slot order, not
      completion order. */
  lemma ArrayScenario()
    ensures SeriesOutcome(Timers, Invoke(Po([Arr([Fn(50), Fn(150), Fn(100)])]), []).pipeline, Undefined) ==
            Ok(Arr([Num(50), Num(150), Num(100)]))
  {
    var items := [Fn(50), Fn(150), Fn(100)];
    assert Po([Arr(items)]).steps == [FanOut(Arr(items))];
    ArrayFanOut(Timers, items, Undefined, Arr([Num(50), Num(150), Num(100)]));
  }

  /** `Po({ a: to(50), b: to(150), c: to(100) })()` fulfils with `{ a: 50, b: 150, c: 100 }`. */
  lemma ObjectScenario()
    ensures SeriesOutcome(Timers, Po([Obj([("a", Fn(50)), ("b", Fn(150)), ("c", Fn(100))])]).steps, Undefined) ==
            Ok(Obj([("a", Num(50)), ("b", Num(150)), ("c", Num(100))]))
  {
    var entries := [("a", Fn(50)), ("b", Fn(150)), ("c", Fn(100))];
    assert Po([Obj(entries)]).steps == [FanOut(Obj(entries))];
    ObjectFanOutComplete(Timers, entries, Undefined, Obj([("a", Num(50)), ("b", Num(150)), ("c", Num(100))]));
  }

  /** The functions of the error propagation test: `to(0)` rejects, any other `to(ms)`
      fulfils with `ms`. */
  function ZeroRejects(id: nat, v: Value): Reply {
    if id == 0 then Rejected(Raised(Str("no ms present"))) else Returned(Num(id))
  }

  /** `Po({ c1: Po({ a1: to(50), a2: to(0) }), c2: Po({ b1: to(100), b2: to(200) }) })()`
      fails with the rejection of `to(0)`, two levels down. */
  lemma NestedErrorScenario()
    ensures SeriesOutcome(ZeroRejects,
              Po([Obj([("c1", Po([Obj([("a1", Fn(50)), ("a2", Fn(0))])])),
                       ("c2", Po([Obj([("b1", Fn(100)), ("b2", Fn(200))])]))])]).steps,
              Undefined) == Err(Raised(Str("no ms present")))
  {
    var e := Raised(Str("no ms present"));
    var left := Obj([("a1", Fn(50)), ("a2", Fn(0))]);
    var right := Obj([("b1", Fn(100)), ("b2", Fn(200))]);
    var outer := Obj([("c1", Pipeline([FanOut(left)])), ("c2", Pipeline([FanOut(right)]))]);
    assert Po([Obj([("c1", Po([left])), ("c2", Po([right]))])]).steps == [FanOut(outer)] by {
      PoOverShape(left);
      PoOverShape(right);
      PoOverShape(outer);
    }
    assert FanOutOutcome(ZeroRejects, outer, Undefined) == Err(e) by {
      assert Slot(ZeroRejects, Member(outer, 0), Undefined) == Rejected(e) by {
        LeftFails();
        FanOutAsPipeline(ZeroRejects, left, Undefined);
        assert Member(outer, 0) == Pipeline([FanOut(left)]);
      }
      assert Slot(ZeroRejects, Member(outer, 1), Undefined).Returned? by {
        RightFulfils();
        FanOutAsPipeline(ZeroRejects, right, Undefined);
        assert Member(outer, 1) == Pipeline([FanOut(right)]);
      }
      OnlyFailingEntry(outer, 0);
    }
  }

  /** `Po(shape)` for an array or object is the pipeline of its single fan-out step. */
  lemma PoOverShape(shape: Value)
    requires shape.Arr? || shape.Obj?
    ensures Po([shape]) == Pipeline([FanOut(shape)])
  {
    assert Po([shape]).steps[0] == FanOut(shape);
  }

  /** A pipeline whose only step is a fan-out settles as that fan-out. */
  lemma FanOutAsPipeline(w: Callables, shape: Value, x: Value)
    ensures SeriesOutcome(w, [FanOut(shape)], x) == FanOutOutcome(w, shape, x)
  {
    assert [FanOut(shape)][1..] == [];
  }

  /** The inner fan-out `{ a1: to(50), a2: to(0) }` fails with the rejection of `to(0)`. */
  lemma LeftFails()
    ensures FanOutOutcome(ZeroRejects, Obj([("a1", Fn(50)), ("a2", Fn(0))]), Undefined) == Err(Raised(Str("no ms present")))
  {
    OnlyFailingEntry(Obj([("a1", Fn(50)), ("a2", Fn(0))]), 1);
  }

  /** The inner fan-out `{ b1: to(100), b2: to(200) }` fulfils. */
  lemma RightFulfils()
    ensures FanOutOutcome(ZeroRejects, Obj([("b1", Fn(100)), ("b2", Fn(200))]), Undefined).Ok?
  {
    ObjectFanOutComplete(ZeroRejects, [("b1", Fn(100)), ("b2", Fn(200))], Undefined, Obj([("b1", Num(100)), ("b2", Num(200))]));
  }

  /** A two-entry object fan-out in which only entry k fails fails with entry k's error. */
  lemma OnlyFailingEntry(shape: Value, k: nat)
    requires shape.Obj? && |shape.entries| == 2 && k < 2
    requires !Slot(ZeroRejects, Member(shape, k), Undefined).Returned?
    requires Slot(ZeroRejects, Member(shape, 1 - k), Undefined).Returned?
    ensures FanOutOutcome(ZeroRejects, shape, Undefined) == Err(Slot(ZeroRejects, Member(shape, k), Undefined).error)
  {
    FanOutFails(ZeroRejects, shape, Undefined);
  }
}
