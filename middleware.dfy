/**
 * The middleware chain of the server (`handleMiddleware`).
 *
 * A middleware is a closure that receives `$next`, the rest of the chain,
 * and decides what the call returns. Here it is modelled by what it does
 * with `$next`: `Around(after)` calls it once and turns its outcome
 * (a value or an exception) into its own, `Halt(outcome)` never calls it.
 * The pass-through middleware `fn ($next) => $next()` is
 * `Around(o => o)`.
 *
 * `handleMiddleware` walks the list in reverse and wraps the current
 * `$next` in each middleware, so the FIRST-registered middleware ends up
 * outermost and runs first. `Chain` is the value of the composed call;
 * `Trace` is the order in which the parts of the chain run.
 */
module Middleware {
  import opened Exceptions

  datatype Mw = Around(after: Outcome -> Outcome) | Halt(outcome: Outcome)

  /** One middleware applied to what `$next` would give. */
  function Step(m: Mw, inner: Outcome): Outcome {
    match m
    case Around(after) => after(inner)
    case Halt(outcome) => outcome
  }

  /** The outcome of the composed call, the first middleware outermost. */
  function Chain(mws: seq<Mw>, terminal: Outcome): Outcome
    decreases |mws|
  {
    if mws == [] then terminal else Step(mws[0], Chain(mws[1..], terminal))
  }

  /** A middleware registered after `mws` sits innermost, next to the handler. */
  lemma {:induction false} ChainAppend(mws: seq<Mw>, m: Mw, terminal: Outcome)
    ensures Chain(mws + [m], terminal) == Chain(mws, Step(m, terminal))
  {
    if mws == [] {
      assert mws + [m] == [m];
    } else {
      assert (mws + [m])[1..] == mws[1..] + [m];
      ChainAppend(mws[1..], m, terminal);
    }
  }

  /** Composition is associative in the list: the chain of `a` runs around the chain of `b`. */
  lemma {:induction false} ChainConcat(a: seq<Mw>, b: seq<Mw>, terminal: Outcome)
    ensures Chain(a + b, terminal) == Chain(a, Chain(b, terminal))
  {
    if a == [] {
      assert a + b == b;
    } else {
      assert (a + b)[1..] == a[1..] + b;
      ChainConcat(a[1..], b, terminal);
    }
  }

  /** A middleware that never calls `$next` makes the outcome independent of the handler. */
  lemma {:induction false} HaltIgnoresHandler(mws: seq<Mw>, i: nat, t1: Outcome, t2: Outcome)
    requires i < |mws| && mws[i].Halt?
    ensures Chain(mws, t1) == Chain(mws, t2)
  {
    if i > 0 {
      HaltIgnoresHandler(mws[1..], i - 1, t1, t2);
    }
  }

  ghost predicate PassThrough(m: Mw) {
    m.Around? && forall o :: m.after(o) == o
  }

  /** With only pass-through middlewares (or none), the call is the handler's own outcome. */
  lemma {:induction false} PassThroughChain(mws: seq<Mw>, terminal: Outcome)
    requires forall i :: 0 <= i < |mws| ==> PassThrough(mws[i])
    ensures Chain(mws, terminal) == terminal
  {
    if mws != [] {
      assert PassThrough(mws[0]);
      PassThroughChain(mws[1..], terminal);
    }
  }

  predicate AllCallNext(mws: seq<Mw>) {
    forall i :: 0 <= i < |mws| ==> mws[i].Around?
  }

  datatype Event = Enter(index: nat) | Handler | Leave(index: nat)

  /**
   * What runs, in order, when the chain `mws` (whose first element has
   * position `first` in the registered list) is called: entering a
   * middleware, the handler, and returning from a middleware.
   */
  function Trace(mws: seq<Mw>, first: nat): seq<Event>
    decreases |mws|
  {
    if mws == [] then [Handler]
    else match mws[0]
      case Halt(_) => [Enter(first), Leave(first)]
      case Around(_) => [Enter(first)] + Trace(mws[1..], first + 1) + [Leave(first)]
  }

  /** How many middlewares run: all of them, or up to and including the first that halts. */
  function Entered(mws: seq<Mw>): (n: nat)
    ensures n <= |mws|
    ensures AllCallNext(mws) ==> n == |mws|
    ensures !AllCallNext(mws) ==> 0 < n && mws[n - 1].Halt? && forall i :: 0 <= i < n - 1 ==> mws[i].Around?
    decreases |mws|
  {
    if mws == [] then 0
    else if mws[0].Halt? then 1
    else
      var n := 1 + Entered(mws[1..]);
      assert forall i :: 1 <= i < |mws| ==> mws[i] == mws[1..][i - 1];
      n
  }

  function Enters(first: nat, n: nat): seq<Event>
  {
    seq(n, j requires 0 <= j < n => Enter(first + j))
  }

  function Leaves(first: nat, n: nat): seq<Event>
  {
    seq(n, j requires 0 <= j < n => Leave(first + n - 1 - j))
  }

  lemma EntersCons(first: nat, n: nat)
    ensures Enters(first, n + 1) == [Enter(first)] + Enters(first + 1, n)
  {
    var longer, shorter := Enters(first, n + 1), Enters(first + 1, n);
    assert forall j :: 1 <= j <= n ==> longer[j] == shorter[j - 1];
  }

  lemma LeavesSnoc(first: nat, n: nat)
    ensures Leaves(first, n + 1) == Leaves(first + 1, n) + [Leave(first)]
  {
    var longer, shorter := Leaves(first, n + 1), Leaves(first + 1, n);
    assert forall j :: 0 <= j < n ==> longer[j] == shorter[j];
  }

  lemma AllCallNextTail(mws: seq<Mw>)
    requires mws != []
    ensures AllCallNext(mws) <==> mws[0].Around? && AllCallNext(mws[1..])
  {
    assert forall i :: 1 <= i < |mws| ==> mws[i] == mws[1..][i - 1];
  }

  lemma Regroup<T>(a: T, x: seq<T>, y: seq<T>, z: seq<T>, b: T)
    ensures [a] + (x + y + z) + [b] == ([a] + x) + y + (z + [b])
  {
  }

  /**
   * The execution order: the entered middlewares in registration order,
   * then the handler if every one of them called `$next`, then the
   * returns in the opposite order.
   */
  lemma {:induction false} TraceShape(mws: seq<Mw>, first: nat)
    ensures Trace(mws, first) ==
      Enters(first, Entered(mws)) + (if AllCallNext(mws) then [Handler] else []) + Leaves(first, Entered(mws))
  {
    if mws == [] {
    } else if mws[0].Halt? {
      AllCallNextTail(mws);
      EntersCons(first, 0);
      LeavesSnoc(first, 0);
    } else {
      var rest := mws[1..];
      var n := Entered(rest);
      var mid := if AllCallNext(rest) then [Handler] else [];
      TraceShape(rest, first + 1);
      AllCallNextTail(mws);
      EntersCons(first, n);
      LeavesSnoc(first, n);
      assert Entered(mws) == n + 1;
      Regroup(Enter(first), Enters(first + 1, n), mid, Leaves(first + 1, n), Leave(first));
    }
  }

  /** The handler runs exactly when every middleware calls `$next`. */
  lemma HandlerRunsIff(mws: seq<Mw>, first: nat)
    ensures Handler in Trace(mws, first) <==> AllCallNext(mws)
  {
    TraceShape(mws, first);
    var n := Entered(mws);
    assert forall j :: 0 <= j < n ==> Enters(first, n)[j] != Handler && Leaves(first, n)[j] != Handler;
  }

  /** The first-registered middleware is entered first and left last. */
  lemma FirstRegisteredOutermost(mws: seq<Mw>)
    requires mws != []
    ensures Trace(mws, 0)[0] == Enter(0)
    ensures Trace(mws, 0)[|Trace(mws, 0)| - 1] == Leave(0)
  {
  }

  /** With no middleware the terminal call is made directly. */
  lemma EmptyChainCallsHandler(terminal: Outcome)
    ensures Chain([], terminal) == terminal
    ensures Trace([], 0) == [Handler]
  {
  }
}
