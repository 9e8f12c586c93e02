/** Successive evaluations of one `Await` instance. The model assumes, as
    the component's body does, that each render re-runs the cascade on the
    triple and props of that moment; a render history is then a sequence of
    frames, and the test scenarios that re-render are stated over it. */
module Renders {
  import opened Options
  import opened JsValues
  import opened AwaitComponent

  /** One evaluation: the triple the hook reports and the props passed. */
  datatype Frame = Frame(state: Triple, props: Props)

  /** The nodes rendered over a history, one per frame. */
  function Outputs(frames: seq<Frame>): (out: seq<Node>)
    ensures |out| == |frames|
    ensures forall i :: 0 <= i < |frames| ==>
              out[i] == Await(frames[i].state, frames[i].props)
  {
    if |frames| == 0 then []
    else [Await(frames[0].state, frames[0].props)] + Outputs(frames[1..])
  }

  /** The call was supplied by the props of some frame and received the
      arguments that frame's triple allows. */
  ghost predicate CalledBySomeFrame(frames: seq<Frame>, c: Call) {
    exists i :: 0 <= i < |frames| && Supplied(frames[i].props, c) && ArgumentsFrom(frames[i].state, c)
  }

  /** Some frame's render actually made the call. */
  ghost predicate MadeBySomeFrame(frames: seq<Frame>, c: Call) {
    exists i :: 0 <= i < |frames| && c in Evaluate(frames[i].state, frames[i].props).invoked
  }

  /** The callbacks invoked over a history, in order. The log holds no more
      calls than there are renders; every call a render makes is in it, and
      every call in it was made by some render; and so every call in it
      goes to a callback that some render supplied, with the arguments that
      render's triple allows: `then` a truthy resolved
      value, `fail` a truthy error, `catchall` the triple unmodified. */
  function CallLog(frames: seq<Frame>): (log: seq<Call>)
    ensures |log| <= |frames|
    ensures forall c :: c in log ==> MadeBySomeFrame(frames, c)
    ensures forall c :: c in log ==> CalledBySomeFrame(frames, c)
    ensures forall i, c :: 0 <= i < |frames| && c in Evaluate(frames[i].state, frames[i].props).invoked ==>
              c in log
  {
    if |frames| == 0 then []
    else
      var head := Evaluate(frames[0].state, frames[0].props).invoked;
      var tail := CallLog(frames[1..]);
      assert forall c :: c in tail ==> MadeBySomeFrame(frames, c) && CalledBySomeFrame(frames, c) by {
        forall c | c in tail
          ensures MadeBySomeFrame(frames, c) && CalledBySomeFrame(frames, c)
        {
          var j :| 0 <= j < |frames[1..]| && c in Evaluate(frames[1..][j].state, frames[1..][j].props).invoked;
          assert frames[1..][j] == frames[j + 1];
        }
      }
      assert forall i, c :: 1 <= i < |frames| && c in Evaluate(frames[i].state, frames[i].props).invoked ==>
               c in tail by {
        forall i, c | 1 <= i < |frames| && c in Evaluate(frames[i].state, frames[i].props).invoked
          ensures c in tail
        {
          assert frames[1..][i - 1] == frames[i];
        }
      }
      head + tail
  }

  /** A `then` that renders its value as the child of a `div`. */
  function DivOf(v: JsValue): Node {
    Elem("div", [v])
  }

  /** A two-frame witness for the dependency-change test: a frame resolved
      to "First" followed by one resolved to "Second", with `then` supplied.
      Its outputs are the "First" node and then the "Second" node, and its
      call log is exactly one `then` call on each value. */
  lemma DependencyChangeScenario()
    ensures var p := NoProps.(thenFn := Some(DivOf));
      var h := [Frame(Triple(Str("First"), Undefined, false), p),
                Frame(Triple(Str("Second"), Undefined, false), p)];
      && Outputs(h) == [Elem("div", [Str("First")]), Elem("div", [Str("Second")])]
      && CallLog(h) == [ThenCall(Str("First")), ThenCall(Str("Second"))]
  {
  }

  /** With only `catchall` supplied, a pending, a resolved and a rejected
      state each reach `catchall` with their triple unmodified, whether the
      error is truthy or not. */
  lemma CatchallHistoryScenario(err: JsValue)
    ensures var p := NoProps.(catchallFn := Some(EchoCatchall));
      var h := [Frame(Triple(Undefined, Undefined, true), p),
                Frame(Triple(Str("Success"), Undefined, false), p),
                Frame(Triple(Undefined, err, false), p)];
      Outputs(h) == [Elem("div", [Undefined, Undefined, Bool(true)]),
                     Elem("div", [Str("Success"), Undefined, Bool(false)]),
                     Elem("div", [Undefined, err, Bool(false)])]
  {
  }
}
