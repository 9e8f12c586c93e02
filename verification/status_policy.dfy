/** A status-tagged resolution policy, kept as a reference to compare the
    component against: pending renders `meanwhile` when it is supplied,
    resolved renders `then(value)` when `then` is supplied, rejected renders
    `fail(error)` when `fail` is supplied, and otherwise `catchall` receives
    the triple, or nothing is rendered. This is how the component's doc
    comment (src/Await.ts:9-12) reads; the component does NOT implement
    this policy: it branches on truthiness. The lemmas below show the two
    take the same branch exactly when no supplied `then`, `fail` or
    `meanwhile` meets falsy data, and exhibit the disagreement for each
    falsy case. */
module StatusPolicy {
  import opened Options
  import opened JsValues
  import opened AwaitComponent

  /** The state of the awaited computation. */
  datatype Status = Pending | Resolved(value: JsValue) | Rejected(error: JsValue)

  /** The triple a status is reported as: a value only when resolved, an
      error only when rejected, and the pending flag only while pending. */
  function TripleOf(s: Status): Triple {
    match s
    case Pending => Triple(Undefined, Undefined, true)
    case Resolved(v) => Triple(v, Undefined, false)
    case Rejected(e) => Triple(Undefined, e, false)
  }

  /** Reading a status back from a triple: pending while loading, rejected
      when an error is present, resolved otherwise. */
  function StatusOf(t: Triple): Status {
    if t.loading then Pending
    else if t.no != Undefined then Rejected(t.no)
    else Resolved(t.yes)
  }

  /** The triple records every status except a rejection with `undefined`,
      which it cannot tell apart from a resolution to `undefined`. */
  lemma TripleOfRoundTrip(s: Status)
    ensures StatusOf(TripleOf(s)) == s <==> s != Rejected(Undefined)
    ensures TripleOf(Rejected(Undefined)) == TripleOf(Resolved(Undefined))
  {
  }

  /** The prop meant for the status is supplied: `meanwhile` while
      pending, `then` when resolved, `fail` when rejected. */
  predicate OwnPropSupplied(s: Status, p: Props) {
    match s
    case Pending => p.meanwhile != Undefined
    case Resolved(_) => p.thenFn.Some?
    case Rejected(_) => p.failFn.Some?
  }

  /** The status-tagged policy, with the callbacks it invokes: pending
      renders a supplied `meanwhile`, resolved calls a supplied `then` on the
      value, rejected calls a supplied `fail` on the error, and otherwise
      `catchall` gets the triple or nothing is rendered. It makes at most
      one call, only to a supplied callback. Whenever the status's own
      prop is supplied it takes that branch: a supplied `meanwhile` is
      rendered while pending, and `then` and `fail` receive exactly the
      status's value and error, truthy or not. When it is not supplied, a
      supplied `catchall` is called on the status's triple, and without one
      nothing is rendered. */
  function EvaluateByStatus(s: Status, p: Props): (e: Evaluation)
    ensures |e.invoked| <= 1
    ensures forall c :: c in e.invoked ==> Supplied(p, c) && e.output == Apply(p, c)
    ensures forall v :: ThenCall(v) in e.invoked ==> s == Resolved(v)
    ensures forall x :: FailCall(x) in e.invoked ==> s == Rejected(x)
    ensures forall y, n, l :: CatchallCall(y, n, l) in e.invoked ==> Triple(y, n, l) == TripleOf(s)
    ensures s.Pending? && p.meanwhile != Undefined ==> e == Evaluation(p.meanwhile, [])
    ensures s.Resolved? && p.thenFn.Some? ==>
              e == Evaluation(p.thenFn.value(s.value), [ThenCall(s.value)])
    ensures s.Rejected? && p.failFn.Some? ==>
              e == Evaluation(p.failFn.value(s.error), [FailCall(s.error)])
    ensures !OwnPropSupplied(s, p) && p.catchallFn.Some? ==>
              e.invoked == [CatchallCall(TripleOf(s).yes, TripleOf(s).no, TripleOf(s).loading)]
    ensures !OwnPropSupplied(s, p) && p.catchallFn.None? ==> e == Evaluation(Undefined, [])
  {
    var t := TripleOf(s);
    var fallback := match p.catchallFn
      case Some(f) => Evaluation(f(t.yes, t.no, t.loading), [CatchallCall(t.yes, t.no, t.loading)])
      case None => Evaluation(Undefined, []);
    match s
    case Pending => if p.meanwhile != Undefined then Evaluation(p.meanwhile, []) else fallback
    case Resolved(v) => if p.thenFn.Some? then Evaluation(p.thenFn.value(v), [ThenCall(v)]) else fallback
    case Rejected(x) => if p.failFn.Some? then Evaluation(p.failFn.value(x), [FailCall(x)]) else fallback
  }

  /** The node the status-tagged policy renders. */
  function ResolveByStatus(s: Status, p: Props): Node {
    EvaluateByStatus(s, p).output
  }

  /** A supplied `then`, `fail` or `meanwhile` meets falsy data in the
      status it is meant for: a falsy resolved value with `then`, a falsy
      error with `fail`, or a supplied but falsy `meanwhile` while pending. */
  predicate FalsyDataMeetsProp(s: Status, p: Props) {
    match s
    case Pending => p.meanwhile != Undefined && !Truthy(p.meanwhile)
    case Resolved(v) => !Truthy(v) && p.thenFn.Some?
    case Rejected(x) => !Truthy(x) && p.failFn.Some?
  }

  /** The truthiness cascade takes the same branch as the status-tagged
      policy (same calls, same output) exactly when no supplied `then`,
      `fail` or `meanwhile` meets falsy data. */
  lemma AgreesUnlessFalsyData(s: Status, p: Props)
    ensures Evaluate(TripleOf(s), p) == EvaluateByStatus(s, p) <==> !FalsyDataMeetsProp(s, p)
  {
  }

  /** A `then` that tags the value it receives. */
  function ThenProbe(v: JsValue): Node {
    Elem("then", [v])
  }

  /** A `fail` that tags the error it receives. */
  function FailProbe(e: JsValue): Node {
    Elem("fail", [e])
  }

  /** A resolved but falsy value (`0`, `""`, `false`, `null`, ...) with
      only `then` supplied: the status-tagged policy renders `then(value)`,
      the component renders nothing. */
  lemma FalsyValueDiverges(v: JsValue)
    requires !Truthy(v)
    ensures var p := NoProps.(thenFn := Some(ThenProbe));
      && Await(TripleOf(Resolved(v)), p) == Undefined
      && ResolveByStatus(Resolved(v), p) == Elem("then", [v])
  {
  }

  /** A rejection with a falsy error (`throw 0`, `reject(undefined)`, ...)
      with only `fail` supplied: the status-tagged policy renders
      `fail(error)`, the component renders nothing. */
  lemma FalsyErrorDiverges(e: JsValue)
    requires !Truthy(e)
    ensures var p := NoProps.(failFn := Some(FailProbe));
      && Await(TripleOf(Rejected(e)), p) == Undefined
      && ResolveByStatus(Rejected(e), p) == Elem("fail", [e])
  {
  }

  /** A supplied but falsy `meanwhile` (`0`, `""`, `null`, `false`) while
      pending: the status-tagged policy renders it, the component renders
      nothing. */
  lemma FalsyMeanwhileDiverges(m: Node)
    requires m != Undefined && !Truthy(m)
    ensures var p := NoProps.(meanwhile := m);
      && Await(TripleOf(Pending), p) == Undefined
      && ResolveByStatus(Pending, p) == m
  {
  }
}
