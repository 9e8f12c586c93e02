/** The render-selection rule of the `Await` component: given the
    `[yes, no, loading]` triple reported by the future hook and the caller's
    optional props, pick exactly one of `meanwhile`, `then(yes)`, `fail(no)`,
    `catchall(yes, no, loading)` or nothing (`undefined`).

    Every guard is a JavaScript `&&` tested for truthiness, not a status
    tag: a resolved value such as `0` or `""`, a falsy error, or a falsy
    `meanwhile` node does not take its branch and falls through to the next. */
module AwaitComponent {
  import opened Options
  import opened JsValues

  /** A React node is itself a JavaScript value (string, number, boolean,
      null, undefined or an element); rendering "nothing" is `Undefined`. */
  type Node = JsValue

  /** What the future hook reports: the resolved value, the error and the
      pending flag. How the hook produces it is not part of this model. */
  datatype Triple = Triple(yes: JsValue, no: JsValue, loading: bool)

  /** The component's optional props. An omitted callback is `None`; an
      omitted `meanwhile` is the value `Undefined`. (`then` is a keyword in
      Dafny, hence the `Fn` suffix on the callback names.) */
  datatype Props = Props(
    thenFn: Option<JsValue -> Node>,
    failFn: Option<JsValue -> Node>,
    meanwhile: Node,
    catchallFn: Option<(JsValue, JsValue, bool) -> Node>)

  /** A props value with every callback and `meanwhile` omitted. */
  const NoProps: Props := Props(None, None, Undefined, None)

  /** One invocation of a caller-supplied callback, with its arguments. */
  datatype Call =
    | ThenCall(value: JsValue)
    | FailCall(error: JsValue)
    | CatchallCall(yes: JsValue, no: JsValue, loading: bool)

  /** The rendered node together with the callbacks invoked to produce it. */
  datatype Evaluation = Evaluation(output: Node, invoked: seq<Call>)

  /** The callback a call goes to was supplied. */
  predicate Supplied(p: Props, c: Call) {
    match c
    case ThenCall(_) => p.thenFn.Some?
    case FailCall(_) => p.failFn.Some?
    case CatchallCall(_, _, _) => p.catchallFn.Some?
  }

  /** What the supplied callback returns for the call. */
  function Apply(p: Props, c: Call): Node
    requires Supplied(p, c)
  {
    match c
    case ThenCall(v) => p.thenFn.value(v)
    case FailCall(e) => p.failFn.value(e)
    case CatchallCall(y, n, l) => p.catchallFn.value(y, n, l)
  }

  /** The arguments of a call are the ones the triple allows it: `then` only
      ever sees a truthy resolved value, `fail` only a truthy error, and
      `catchall` the triple unmodified. */
  predicate ArgumentsFrom(t: Triple, c: Call) {
    match c
    case ThenCall(v) => v == t.yes && Truthy(v)
    case FailCall(e) => e == t.no && Truthy(e)
    case CatchallCall(y, n, l) => Triple(y, n, l) == t
  }

  /** The ternary cascade: `loading && meanwhile ? meanwhile : yes && then ?
      then(yes) : no && fail ? fail(no) : catchall?.(yes, no, loading)`.
      A supplied callback is a function object and so always truthy, which
      makes `yes && then` truthy exactly when `yes` is truthy and `then` is
      supplied (likewise for `no && fail`). */
  function Evaluate(t: Triple, p: Props): (e: Evaluation)
    ensures |e.invoked| <= 1
    ensures forall c :: c in e.invoked ==>
              Supplied(p, c) && ArgumentsFrom(t, c) && e.output == Apply(p, c)
    ensures e.invoked == [] ==> e.output == p.meanwhile || e.output == Undefined
  {
    if Truthy(JsAnd(Bool(t.loading), p.meanwhile)) then
      Evaluation(p.meanwhile, [])
    else if Truthy(t.yes) && p.thenFn.Some? then
      Evaluation(p.thenFn.value(t.yes), [ThenCall(t.yes)])
    else if Truthy(t.no) && p.failFn.Some? then
      Evaluation(p.failFn.value(t.no), [FailCall(t.no)])
    else
      match p.catchallFn
      case Some(f) => Evaluation(f(t.yes, t.no, t.loading), [CatchallCall(t.yes, t.no, t.loading)])
      case None => Evaluation(Undefined, [])
  }

  /** The node the component renders. */
  function Await(t: Triple, p: Props): Node {
    Evaluate(t, p).output
  }

  /** The `meanwhile` guard, `loading && meanwhile`, as a condition. */
  predicate MeanwhileFires(t: Triple, p: Props) {
    t.loading && Truthy(p.meanwhile)
  }

  /** Pending with a truthy `meanwhile`: `meanwhile` is rendered and no
      callback is invoked, whatever `then`, `fail` and `catchall` are. */
  lemma MeanwhileBranch(t: Triple, p: Props)
    requires MeanwhileFires(t, p)
    ensures Await(t, p) == p.meanwhile
    ensures Evaluate(t, p).invoked == []
  {
  }

  /** When the `meanwhile` branch does not fire, a truthy resolved value
      with `then` supplied renders `then(yes)`, and `then` is the only
      callback invoked. */
  lemma ThenBranch(t: Triple, p: Props)
    requires !MeanwhileFires(t, p)
    requires Truthy(t.yes) && p.thenFn.Some?
    ensures Await(t, p) == p.thenFn.value(t.yes)
    ensures Evaluate(t, p).invoked == [ThenCall(t.yes)]
  {
  }

  /** When neither earlier branch fires, a truthy error with `fail`
      supplied renders `fail(no)`, and `fail` is the only callback invoked. */
  lemma FailBranch(t: Triple, p: Props)
    requires !MeanwhileFires(t, p)
    requires !(Truthy(t.yes) && p.thenFn.Some?)
    requires Truthy(t.no) && p.failFn.Some?
    ensures Await(t, p) == p.failFn.value(t.no)
    ensures Evaluate(t, p).invoked == [FailCall(t.no)]
  {
  }

  /** When none of the three guards holds, `catchall` receives the triple
      unmodified if it is supplied, and nothing is rendered otherwise. */
  lemma CatchallBranch(t: Triple, p: Props)
    requires !MeanwhileFires(t, p)
    requires !(Truthy(t.yes) && p.thenFn.Some?)
    requires !(Truthy(t.no) && p.failFn.Some?)
    ensures p.catchallFn.Some? ==>
              Await(t, p) == p.catchallFn.value(t.yes, t.no, t.loading)
              && Evaluate(t, p).invoked == [CatchallCall(t.yes, t.no, t.loading)]
    ensures p.catchallFn.None? ==> Await(t, p) == Undefined && Evaluate(t, p).invoked == []
  {
  }

  /** With no callbacks supplied no callback can run: the output is
      `meanwhile` while it fires and nothing otherwise, and with `meanwhile`
      omitted as well nothing is rendered in any state. */
  lemma NoCallbacksRenderNothing(t: Triple, meanwhile: Node)
    ensures Await(t, NoProps.(meanwhile := meanwhile)) ==
              (if t.loading && Truthy(meanwhile) then meanwhile else Undefined)
    ensures Await(t, NoProps) == Undefined
    ensures Evaluate(t, NoProps.(meanwhile := meanwhile)).invoked == []
  {
  }

  /** A falsy resolved value never reaches `then`: the output is what it
      would be with `then` omitted, so it falls through to `fail`,
      `catchall` or nothing. */
  lemma FalsyValueSkipsThen(t: Triple, p: Props)
    requires !Truthy(t.yes)
    ensures Await(t, p) == Await(t, p.(thenFn := None))
    ensures forall v :: ThenCall(v) !in Evaluate(t, p).invoked
  {
  }

  /** A falsy error never reaches `fail`: the output is what it would be
      with `fail` omitted. */
  lemma FalsyErrorSkipsFail(t: Triple, p: Props)
    requires !Truthy(t.no)
    ensures Await(t, p) == Await(t, p.(failFn := None))
    ensures forall e :: FailCall(e) !in Evaluate(t, p).invoked
  {
  }

  /** A falsy `meanwhile` node is never rendered by its own branch: while
      pending the output is what it would be with `meanwhile` omitted. */
  lemma FalsyMeanwhileSkipped(t: Triple, p: Props)
    requires !Truthy(p.meanwhile)
    ensures Await(t, p) == Await(t, p.(meanwhile := Undefined))
  {
  }

  /** No truthy value in the triple (absent, or falsy such as `0` or `""`),
      no truthy error and no firing `meanwhile`: the result is `catchall` of
      the triple, whatever `then` and `fail` are. */
  lemma FalsyValueFallsBackToCatchall(t: Triple, p: Props)
    requires !MeanwhileFires(t, p)
    requires !Truthy(t.yes) && !Truthy(t.no)
    requires p.catchallFn.Some?
    ensures Await(t, p) == p.catchallFn.value(t.yes, t.no, t.loading)
  {
  }

  /** A `catchall` that renders its three arguments as the children of a
      `div`, standing for the template-literal callback of the tests. */
  function EchoCatchall(yes: JsValue, no: JsValue, loading: bool): Node {
    Elem("div", [yes, no, Bool(loading)])
  }

  /** With only `catchall` supplied, the pending triple and the resolved
      triple are forwarded verbatim. */
  lemma CatchallOnlyForwardsTriple()
    ensures var p := NoProps.(catchallFn := Some(EchoCatchall));
      && Await(Triple(Undefined, Undefined, true), p)
           == Elem("div", [Undefined, Undefined, Bool(true)])
      && Await(Triple(Str("Success"), Undefined, false), p)
           == Elem("div", [Str("Success"), Undefined, Bool(false)])
  {
  }
}
