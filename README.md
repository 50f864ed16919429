# po: a verified model of the pipeline engine

`po` builds a pipeline out of steps. `Po(step1, step2, ...)` resolves every argument
once: an array or object becomes a fan-out step, and every other value stays as it is.
It returns a function `po`. Calling `po(arg)` gives a thenable. Each `then` or `catch`
on that thenable starts a fresh series run. A series run passes `arg` to the first
step, feeds each step's result to the next step, stops at the first falsy entry, and
fails with the first error. A fan-out step calls each of its function entries with
the same argument and joins the results into a value of the same shape: an array for
an array, an object with the same keys for an object. A `po` function is itself a
valid step, so pipelines nest.

The model abstracts promises to their settlement. Each step is a deterministic
computation that returns (`Returned`), throws synchronously (`Threw`) or rejects
(`Rejected`). The caller's own functions are a parameter, `Callables`: it maps a
function's identity and argument to a `Reply`.

Files:

- `values.dfy` (`Values`): JavaScript values, `type`, truthiness, errors, replies.
- `semantics.dfy` (`Semantics`): what a call to a step, a series run and a fan-out
  settle to, written as functions.
- `engine.dfy` (`Engine`): `resolve`, the `series` and `parallel` runners as loops
  proved equal to those functions, and `Po` / `po` / `then` / `catch`.
- `series_properties.dfy`, `fanout_properties.dfy`, `composition.dfy`: the
  properties of series runs, of fan-outs and of nesting, plus scenarios from
  `test/po.js`.

Points of `index.js` worth knowing, each modelled as written:

- `index.js` has no arity or currying, and it never rejects an empty pipeline: `Po()`
  builds a pipeline that returns its argument.
- `po` forwards only its first argument; with no argument the first step receives
  `undefined` (`Engine.Invoke`).
- A truthy step that is not a function is still called (index.js:66) and fails with a
  TypeError (`SeriesProperties.NotCallableStepFails`).
- `typeof null` is `'object'`, so `null` as a step is compiled into a fan-out. Walking
  it fails with the TypeError that `foreach` raises, instead of stopping the run the
  way `undefined` does (`Composition.NullAndUndefinedSteps`).
- A promise stored in a fan-out object is an `'object'` to `type`. Like any nested
  object it is kept as an uncalled fan-out closure, not joined.

## Model

| member | source | states |
|---|---|---|
| `Values.Type` | index.js:125-129 | arrays are 'array'; objects and `null` are 'object'; the caller's functions, fan-out closures and `po` closures are 'function'; only `undefined` is 'undefined' |
| `Engine.Resolve` | index.js:48-58 | an array or object (including `null`) becomes the fan-out closure over itself; anything else is returned unchanged; a resolved step is never an array or object; it is falsy exactly when the input is falsy and not `null` |
| `Engine.Call` | index.js:66 | `fn(prev)` for every kind of `fn`: the caller's function, a nested pipeline, a fan-out closure, or a TypeError for a non-function |
| `Engine.Series` | index.js:60-69 | the loop settles as `SeriesOutcome`; every invoked step is truthy; step 0 gets `arg`; step k+1 gets exactly step k's value; on failure the last invoked step failed with that same error and nothing after it ran; on success the run stopped at the end or at a falsy entry, with the last step's value (or `arg` if no step ran) |
| `Engine.Parallel` | index.js:79-114 | settles as `FanOutOutcome`; entries are walked in order; when fewer than all are walked, the last walked entry threw synchronously and the fan-out fails with its error |
| `Engine.PushAll` | index.js:82-97 | the first walk: a synchronous throw at entry k aborts it with that error after no earlier throw; otherwise slot k is the settlement of entry k, for every k |
| `Engine.Push` | index.js:84-96 | an entry pushes the reply of calling it if it is a function, its uncalled fan-out closure if it is an array or object, and itself otherwise |
| `Engine.Rekey` | index.js:104-108 | the second walk gives an object with the input's keys in order, the key at position k bound to joined value k |
| `Engine.Po` | index.js:25-26 | `Po(...)` is a function value whose steps are the arguments, each resolved, in order |
| `Engine.Invoke` | index.js:28-37 | `po(...)` keeps the pipeline and only the first argument (`undefined` if there is none) |
| `Engine.Then` | index.js:30-32 | each `then` registration runs the series afresh and reports its settlement |
| `Engine.Catch` | index.js:33-35 | each `catch` registration runs the series afresh; the callback sees an error exactly when the run fails, and it is the run's error |
| `Semantics.Settle` | index.js:66 | a synchronous throw and a rejection both settle as failure with the same error; a returned value settles as success with that value |
| `Semantics.Defer` | index.js:81 | a promise-returning closure never throws synchronously and settles as its run does |
| `Semantics.Collect` | index.js:83-97 | the first walk from entry i pushes one settlement per remaining entry, or aborts at an entry at or after i |
| `Semantics.Join` | index.js:99 | `Promise.all` fulfils exactly when every slot fulfils, with the slots' values in order; otherwise it rejects with the error of some rejected slot |
| `SeriesProperties.TraceAppend` | index.js:63-68 | the calls of a run over `p + rest`, `p` without falsy entries, are those of `p` followed by those of `rest` run from `p`'s value, and none of `rest` if `p` fails |
| `SeriesProperties.TraceOfChain` | index.js:63-68 | a chain of the caller's functions that all fulfil calls step k exactly once, with value k, in order |
| `SeriesProperties.Threading` | index.js:63-68 | if steps 0..n-1 pass values along a chain, the run settles with the last value, or with step n's error unmodified, or with the current value when entry n is falsy |
| `SeriesProperties.SeriesAppend` | index.js:63-68 | a run over `p + rest` with every entry of `p` truthy is the run over `p` continued with `rest` from its value, or its failure |
| `SeriesProperties.FailureShortCircuits` | index.js:66 | once a run over `p` fails, appending any entries leaves the failure unchanged |
| `SeriesProperties.FalsyStops` | index.js:64-65 | a falsy entry at k makes the run equal to the run over the entries before k; at k = 0 it gives `arg` back |
| `SeriesProperties.NotCallableStepFails` | index.js:64-66 | a truthy non-function first step fails the run with the TypeError of calling it |
| `FanOutProperties.CollectPushed` | index.js:83-97 | the walk pushes every remaining entry exactly when none of them throws synchronously, and slot k - i is entry k's settlement |
| `FanOutProperties.CollectAborted` | index.js:83-97 | an aborted walk stops at an entry that threw that error, with no throw before it |
| `FanOutProperties.ArrayFanOut` | index.js:99-102 | array fan-out fulfils with `r` exactly when `r` has the input's length and slot k is what entry k fulfilled with |
| `FanOutProperties.ObjectFanOut` | index.js:104-109 | object fan-out fulfils with `r` exactly when `r` has the input's keys in order, each bound to what the entry under it fulfilled with |
| `FanOutProperties.ObjectFanOutSound` | index.js:104-109 | a fulfilled object fan-out has the input's keys in order, each bound to its entry's value |
| `FanOutProperties.ObjectFanOutComplete` | index.js:104-109 | when every entry fulfils, the object fan-out fulfils with the rekeyed object |
| `FanOutProperties.ObjectFanOutByKey` | index.js:104-109 | the result has a key exactly when the input does, and under it holds what the input's entry under that key fulfilled with |
| `FanOutProperties.FanOutFails` | index.js:99-110 | a fan-out fails exactly when its shape is `null` or some entry throws or rejects, and its error is then a failing entry's error |
| `FanOutProperties.SyncThrowDecides` | index.js:83-88 | a synchronous throw at entry k with none before it fails the fan-out with exactly that error |
| `FanOutProperties.UncalledEntries` | index.js:90-95 | a nested array or object entry yields its fan-out closure without running it; a plain value is copied |
| `FanOutProperties.NoFunctionNoCalls` | index.js:86-96 | a shape without function entries gives the same fan-out result for any caller functions and any argument |
| `FanOutProperties.NestedPipelineFailurePropagates` | index.js:87-88 | a nested pipeline entry whose run fails makes the whole fan-out fail |
| `Composition.ResolveIdempotent` | index.js:48-58 | resolving a resolved step changes nothing |
| `Composition.PoAsStep` | index.js:28-37 | a `Po` value used as a step never throws synchronously and settles as `then` on `po(x)` does |
| `Composition.InlineNested` | test/po.js:233-253 | a nested pipeline with no falsy entries runs as if its steps were written inline |
| `Composition.TraceInline` | test/po.js:233-253 | inlining a nested pipeline without falsy entries keeps its calls: the same functions, the same arguments, the same order |
| `Composition.InlineNeedsTruthy` | index.js:64-65 | a falsy entry ends only the inner run; the outer run carries on, unlike the inlined chain |
| `Composition.NullAndUndefinedSteps` | index.js:125-129 | a `null` step fails the run with the `foreach` TypeError; an `undefined` step returns the argument |
| `Composition.SeriesCompositionScenario` | test/po.js:246-250 | `Po(Po(a, b), a, b)('a')` settles as the chain `a, b, a, b`, with 'c' |
| `Composition.SeriesCompositionTrace` | test/po.js:246-249 | `Po(Po(a, b), a, b)('a')` calls `a`, `b`, `a`, `b` with 'a', 'b', 'c', 'b', in that order |
| `Composition.LetterChainTrace` | test/po.js:236-244 | the chain `a, b, a, b` run from 'a' calls its steps with 'a', 'b', 'c', 'b' |
| `Composition.SeriesErrorScenario` | test/po.js:154-158 | `Po(a, b, c, d)('a')` fails with `c`'s rejection, whatever `d` is |
| `Composition.ArrayScenario` | test/po.js:176-177 | `Po([to(50), to(150), to(100)])()` fulfils with `[50, 150, 100]` in slot order |
| `Composition.ObjectScenario` | test/po.js:205-218 | `Po({ a: to(50), b: to(150), c: to(100) })()` fulfils with `{ a: 50, b: 150, c: 100 }`, keys in input order |
| `Composition.FanOutAsPipeline` | index.js:63-68 | a pipeline whose only step is a fan-out settles exactly as that fan-out |
| `Composition.NestedErrorScenario` | test/po.js:307-325 | an object fan-out over two nested `Po` objects fails with the rejection of `to(0)` inside the first one |

## Left out

- Promise scheduling, the event loop and timers. Each call settles to a fixed reply, so
  completion-order logs (test/po.js:178, test/po.js:215) are not modelled.
- `Semantics.Join`: when several slots reject, the runtime reports whichever settles
  first. The definition picks the lowest slot. The contracts promise only the error of
  some rejected slot.
- `Semantics.CallTrace`: a fan-out step contributes no calls to a series trace. Its
  entries are started in order, but the nested runs among them continue as their own
  steps settle, so their calls interleave by timing. Calls of nested pipelines run as
  series steps are traced in full (`Semantics.Trace`), since the outer run waits for
  each of them (index.js:66).
- `Engine.Resolve`: the fan-out closure takes its shape by value. `parallel(obj)` keeps
  a reference to the caller's array or object, so changes the caller makes to it after
  `Po(...)`, and changes a step makes to it during the first walk (which shift the
  joined values under the keys of the second walk), are not modelled.
- What a caller's function does inside: adopting thenables it returns, side effects,
  and reading more than one argument. `Callables` gives only the settled reply.
- The continuations passed to `then`/`catch` and the promises they return. The model
  reports the settlement they receive. Running the pipeline once per registration is
  modelled as an independent run, without its side effects.
- Numbers are integers, so NaN, -0 and fractions are not modelled. Falsy values are
  `undefined`, `null`, `false`, `0` and `""`.
- `foreach` walks any object with a numeric `length` property like an array, and
  JavaScript lists integer-like keys first. Both are left out: an object is a list of
  entries in a fixed order.
- A fan-out closure over something other than an array, object or `null`. The engine
  never builds one; the model treats it like `null`.
- The third-party `es6-promise`, `foreach` and `sliced` modules. They are replaced by
  settlements and walks over sequences in order.
- `promisify` and `isUndefined` (index.js:43-45, index.js:131-133) are unused. The
  commented-out generator tests and the `promise_timeout` fixture are test scaffolding.
