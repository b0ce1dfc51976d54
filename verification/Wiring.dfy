/** How the proxy wraps its handler: a backward loop over the middlewares in the order they were added. */
module Wiring {

  /** The first middleware is the outermost one. */
  function RightFold<H>(middlewares: seq<H -> H>, core: H): H {
    if middlewares == [] then core
    else middlewares[0](RightFold(middlewares[1..], core))
  }

  method Wrap<H>(middlewares: seq<H -> H>, core: H) returns (handler: H)
    ensures handler == RightFold(middlewares, core)
  {
    handler := core;
    var i := |middlewares| - 1;
    while i >= 0
      invariant -1 <= i < |middlewares|
      invariant handler == RightFold(middlewares[i + 1..], core)
    {
      assert middlewares[i..][1..] == middlewares[i + 1..];
      handler := middlewares[i](handler);
      i := i - 1;
    }
    assert middlewares[0..] == middlewares;
  }

  datatype Event = Enter(layer: nat) | Leave(layer: nat) | Core

  /** A handler that records when it is entered and left, seen as the events it causes. */
  function Layer(i: nat): seq<Event> -> seq<Event> {
    inner => [Enter(i)] + inner + [Leave(i)]
  }

  /** The layers `first`, `first + 1`, ..., `n` of them. */
  function Layers(first: nat, n: nat): seq<seq<Event> -> seq<Event>>
    decreases n
  {
    if n == 0 then [] else [Layer(first)] + Layers(first + 1, n - 1)
  }

  function Entering(first: nat, n: nat): seq<Event> {
    seq(n, k requires 0 <= k < n => Enter(first + k))
  }

  function Leaving(first: nat, n: nat): seq<Event> {
    seq(n, k requires 0 <= k < n => Leave(first + n - 1 - k))
  }

  /** n layers enter in the order they were added, then the core runs, then they leave in reverse. */
  lemma {:induction false} LayersNest(first: nat, n: nat)
    ensures RightFold(Layers(first, n), [Core]) == Entering(first, n) + [Core] + Leaving(first, n)
    decreases n
  {
    if n > 0 {
      LayersNest(first + 1, n - 1);
      assert Layers(first, n)[1..] == Layers(first + 1, n - 1);
      assert Entering(first, n) == [Enter(first)] + Entering(first + 1, n - 1);
      assert Leaving(first, n) == Leaving(first + 1, n - 1) + [Leave(first)];
    }
  }
}
