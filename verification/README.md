# Await render selection, modelled in Dafny

The `Await` React component wraps an asynchronous computation. A future hook
(`useFuture` from the `use-future` package) reports the computation's state as
a triple `[yes, no, loading]`: the resolved value, the error and the pending
flag. On every render the component chooses one output from that triple and
the caller's optional props `meanwhile`, `then`, `fail` and `catchall`:

```
loading && meanwhile ? meanwhile
  : yes && then ? then(yes)
  : no && fail ? fail(no)
  : catchall?.(yes, no, loading)
```

Every guard is a JavaScript `&&` whose result is tested for truthiness. So a
resolved value such as `0` or `""`, a falsy error, or a falsy `meanwhile` node
does not take its branch and falls through to the next one.

The model has four modules:

- `JsValues` (js_value.dfy): JavaScript values, truthiness (ToBoolean, section
  7.1.2 of ECMA-262) and the `&&` operator.
- `AwaitComponent` (await.dfy): the triple, the props and the cascade.
  `Evaluate` returns the rendered node and the list of callbacks invoked.
  There is one lemma per branch and one per fall-through case.
- `Renders` (renders.dfy): a sequence of evaluations of one instance. It
  assumes, as the component's body does, that each render re-runs the cascade
  on that render's triple and props. It holds the call log of a history and
  the two test scenarios that re-render.
- `StatusPolicy` (status_policy.dfy): an alternative, status-tagged policy.
  It pins down exactly where truthiness branching and status branching
  differ.

`Options` (options.dfy) holds the `Option` type used for omitted callbacks.

## Truthiness versus status branching

The component's doc comment (src/Await.ts:9-12) reads as if branching follows
the promise's status. It says `then` receives the resolved value, `fail` the
error, and `meanwhile` is rendered while the promise is pending. Under that
reading a falsy resolved value would still reach `then`. The code branches on
truthiness instead, and the model follows the code (`AwaitComponent.Evaluate`).
The status reading is kept only as an alternative policy,
`StatusPolicy.EvaluateByStatus`. `StatusPolicy.AgreesUnlessFalsyData` proves
the two take the same branch exactly when no supplied `then`, `fail` or
`meanwhile` meets falsy data. The three `...Diverges` lemmas give the outputs
where they differ: a falsy value, a falsy error, and a supplied but falsy
`meanwhile`.

## Model

| member | source | states |
|---|---|---|
| JsValues.JsAnd | src/Await.ts:34 | `a && b` is truthy exactly when both operands are truthy, and it yields one of its operands |
| JsValues.FalsyIffListed | src/Await.ts:34-38 | a guard operand is falsy exactly when it is `undefined`, `null`, `false`, `0`, `NaN`, `0n` or `""` |
| AwaitComponent.Evaluate | src/Await.ts:34-40 | at most one callback is invoked, and only a supplied one. `then` gets only the truthy resolved value, `fail` only the truthy error, and `catchall` the unmodified triple. The output is that callback's result; with no callback invoked it is `meanwhile` or `undefined` |
| AwaitComponent.MeanwhileBranch | src/Await.ts:34-35 | pending with a truthy `meanwhile` renders `meanwhile` and invokes no callback, whatever else is supplied |
| AwaitComponent.ThenBranch | src/Await.ts:36-37 | if `meanwhile` does not fire and the value is truthy with `then` supplied, the output is `then(yes)` and `then` is the only call |
| AwaitComponent.FailBranch | src/Await.ts:38-39 | if neither earlier guard fires and the error is truthy with `fail` supplied, the output is `fail(no)` and `fail` is the only call |
| AwaitComponent.CatchallBranch | src/Await.ts:40 | otherwise `catchall` receives `(yes, no, loading)` unmodified when supplied, and the output is `undefined` when it is not |
| AwaitComponent.NoCallbacksRenderNothing | src/Await.ts:34-40 | with no callbacks the output is `meanwhile` while it fires and `undefined` otherwise. With `meanwhile` omitted too, every state renders `undefined` |
| AwaitComponent.FalsyValueSkipsThen | src/Await.ts:36-40 | a falsy resolved value never reaches `then`. The output equals the output with `then` omitted |
| AwaitComponent.FalsyErrorSkipsFail | src/Await.ts:38-40 | a falsy error never reaches `fail`. The output equals the output with `fail` omitted |
| AwaitComponent.FalsyMeanwhileSkipped | src/Await.ts:34-35 | a falsy `meanwhile` gives the same output as an omitted one |
| AwaitComponent.FalsyValueFallsBackToCatchall | src/Await.ts:36-40 | with no truthy value (absent or falsy), no truthy error and no firing `meanwhile`, the output is `catchall` of the triple whatever `then` and `fail` are |
| AwaitComponent.CatchallOnlyForwardsTriple | src/Await.test.tsx:144-158 | with only `catchall`, the pending triple `(undefined, undefined, true)` and the resolved triple `("Success", undefined, false)` are forwarded verbatim |
| Renders.CallLog | src/Await.ts:36-40 | over a history, the log holds no more calls than renders. Every call any render makes appears in it, and every call in it was made by some render. So every call in it goes to a callback some render supplied, with the arguments that render's triple allows: `then` a truthy value, `fail` a truthy error, `catchall` the triple unmodified |
| Renders.DependencyChangeScenario | src/Await.test.tsx:63-85 | in a two-frame witness, resolved to `"First"` and then to `"Second"` with `then` supplied, the outputs are the `"First"` node then the `"Second"` node, and the log is one `then` call on each value |
| Renders.CatchallHistoryScenario | src/Await.test.tsx:144-183 | with only `catchall`, the pending, resolved and rejected states each reach `catchall` unmodified, whether or not the error is truthy |
| StatusPolicy.TripleOfRoundTrip | src/Await.ts:31 | the triple keeps every status except a rejection with `undefined`, which looks like a resolution to `undefined` |
| StatusPolicy.EvaluateByStatus | src/Await.ts:9-12 | the status reading of the doc comment. While pending, a supplied `meanwhile` is rendered. When resolved, a supplied `then` is called on the value, and when rejected, a supplied `fail` on the error, truthy or not. When that prop is omitted, a supplied `catchall` is called on the status's triple, and without one nothing is rendered. At most one call is made, only to a supplied callback |
| StatusPolicy.AgreesUnlessFalsyData | src/Await.ts:34-40 | the cascade makes the same calls and renders the same node as status branching if and only if no supplied `then`, `fail` or `meanwhile` meets falsy data |
| StatusPolicy.FalsyValueDiverges | src/Await.ts:36-37 | a falsy resolved value with only `then` renders nothing, where status-tagged branching would render `then(value)` |
| StatusPolicy.FalsyErrorDiverges | src/Await.ts:38-39 | a falsy error with only `fail` renders nothing, where status-tagged branching would render `fail(error)` |
| StatusPolicy.FalsyMeanwhileDiverges | src/Await.ts:34-35 | a supplied but falsy `meanwhile` while pending renders nothing, where status-tagged branching would render it |

## Left out

- The `useFuture` hook (src/Await.ts:2, 31): it comes from an external package and its source is not part of this model. Invoking the promise, comparing the dependency list, the pending/settled transitions and suppressing stale results all happen there. The model takes the triple as given. `StatusPolicy.TripleOf` is only an assumed reading of a status as a triple; the tests support it, but it is not the hook's code.
- React rendering: nodes are plain JavaScript values. An element is an opaque `Elem(tag, children)`, and rendering "nothing" is `undefined`.
- Number representation: numbers are integers plus `NaN`. `-0` is represented by `0`, which is equally falsy. Fractional values and infinities are not modelled; they are all truthy.
- Callback props that are `null`, or truthy but not functions: the prop types exclude them. A supplied callback is a function object and so always truthy.
- `loading` is a boolean, as the hook's result and the `catchall` signature type it.
- Exceptions thrown by the callbacks themselves: callbacks are total Dafny functions.
- vitest.config.ts: test-runner configuration that runs a shell command and joins paths. It has no bearing on the render decision.
- Asynchronous timing in the tests (`waitFor`, `setTimeout`, `rerender`): the tests appear only as concrete triple-to-output witnesses.
