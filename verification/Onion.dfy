/** Middleware composition: the wrapper loops of `consumer/default_consumer.go` and
    `publisher/default_publisher.go`, and the context-acknowledgement wrapper of
    `consumer/options.go`. */
module Onion {
  import opened Prelude

  /** The first wrapper is the outermost. */
  function Compose<H>(wrappers: seq<H -> H>, handler: H): H {
    if wrappers == [] then handler else wrappers[0](Compose(wrappers[1..], handler))
  }

  /** The loop counts down and wraps as it goes. */
  method ApplyWrappers<H>(wrappers: seq<H -> H>, handler: H) returns (fn: H)
    ensures fn == Compose(wrappers, handler)
  {
    fn := handler;
    var i := |wrappers|;
    while i > 0
      invariant 0 <= i <= |wrappers|
      invariant fn == Compose(wrappers[i..], handler)
    {
      fn := wrappers[i - 1](fn);
      i := i - 1;
      assert wrappers[i..][1..] == wrappers[i + 1..];
    }
    assert wrappers[0..] == wrappers;
  }

  /** Wrapping with `a` followed by `b` is wrapping with `a` around what `b` makes. */
  lemma {:induction false} ComposeSplits<H>(a: seq<H -> H>, b: seq<H -> H>, handler: H)
    ensures Compose(a + b, handler) == Compose(a, Compose(b, handler))
    decreases |a|
  {
    if a == [] {
      assert a + b == b;
    } else {
      assert (a + b)[1..] == a[1..] + b;
      ComposeSplits(a[1..], b, handler);
    }
  }

  /** What a wrapped call leaves behind: each layer is entered and left around the handler. */
  datatype Mark = Enter(layer: nat) | Handled | Leave(layer: nat)

  function Layer(k: nat): seq<Mark> -> seq<Mark> {
    (inner: seq<Mark>) => [Enter(k)] + inner + [Leave(k)]
  }

  function Layers(first: nat, count: nat): seq<seq<Mark> -> seq<Mark>>
    decreases count
  {
    if count == 0 then [] else [Layer(first)] + Layers(first + 1, count - 1)
  }

  function Entering(first: nat, count: nat): seq<Mark> {
    seq(count, k requires 0 <= k => Enter(first + k))
  }

  function Leaving(first: nat, count: nat): seq<Mark> {
    seq(count, k requires 0 <= k < count => Leave(first + count - 1 - k))
  }

  lemma EnteringSplits(first: nat, count: nat)
    requires count > 0
    ensures Entering(first, count) == [Enter(first)] + Entering(first + 1, count - 1)
    ensures Leaving(first, count) == Leaving(first + 1, count - 1) + [Leave(first)]
  {
  }

  lemma Outermost(first: nat, count: nat)
    requires count > 0
    ensures Compose(Layers(first, count), [Handled])
         == [Enter(first)] + Compose(Layers(first + 1, count - 1), [Handled]) + [Leave(first)]
  {
    assert Layers(first, count)[1..] == Layers(first + 1, count - 1);
  }

  /** The onion: layers are entered in list order and left in reverse, around one call. */
  lemma {:induction false} OnionOrder(first: nat, count: nat)
    ensures Compose(Layers(first, count), [Handled]) == Entering(first, count) + [Handled] + Leaving(first, count)
    decreases count
  {
    if count == 0 {
      assert Entering(first, count) == [] && Leaving(first, count) == [];
    } else {
      OnionOrder(first + 1, count - 1);
      Outermost(first, count);
      EnteringSplits(first, count);
      Around([Enter(first)], Entering(first + 1, count - 1), [Handled], Leaving(first + 1, count - 1), [Leave(first)]);
    }
  }

  lemma Around(a: seq<Mark>, b: seq<Mark>, c: seq<Mark>, d: seq<Mark>, e: seq<Mark>)
    ensures a + (b + c + d) + e == (a + b) + c + (d + e)
  {
  }

  // ---- The acknowledgement closure in the context ----

  /** A context: the acknowledgement it carries, naming the message it acknowledges, and the rest. */
  datatype Context = Context(ack: Option<nat>, values: map<string, string>)

  /** A middleware seen from below: what it does to the context it passes on. `Other` stands for any
      middleware that does not touch the acknowledgement. */
  datatype Middleware = ContextAck | Other(values: map<string, string>)

  function Pass(m: Middleware, msgAck: Option<nat>, ctx: Context): Context {
    match m
    case ContextAck => if msgAck.Some? then ctx.(ack := msgAck) else ctx
    case Other(values) => ctx.(values := ctx.values + values)
  }

  /** The context the business handler receives through a chain. */
  function Through(chain: seq<Middleware>, msgAck: Option<nat>, ctx: Context): Context {
    if chain == [] then ctx else Through(chain[1..], msgAck, Pass(chain[0], msgAck, ctx))
  }

  /** `Ack`: runs the closure the context carries, if any. */
  function Ack(ctx: Context, acked: set<nat>): set<nat> {
    match ctx.ack
    case Some(id) => acked + {id}
    case None => acked
  }

  /** `Ack` called by the business handler acknowledges exactly its own message if the wrapper is
      anywhere in the chain, and nothing otherwise. */
  lemma {:induction false} AckReachesOwnMessage(chain: seq<Middleware>, id: nat, ctx: Context, acked: set<nat>)
    requires ctx.ack.None? || ctx.ack == Some(id)
    ensures Ack(Through(chain, Some(id), ctx), acked)
         == acked + (if ContextAck in chain || ctx.ack.Some? then {id} else {})
    decreases |chain|
  {
    if chain == [] {
    } else {
      AckReachesOwnMessage(chain[1..], id, Pass(chain[0], Some(id), ctx), acked);
      assert ContextAck in chain <==> chain[0] == ContextAck || ContextAck in chain[1..];
    }
  }
}
