/** What every run of the delivery protocol keeps, whatever the options of its handlers: ids stay
    partitioned, loops hold only delivered ids, and what a handler sees is what was published. */
module Fidelity {
  import opened Prelude
  import Wire
  import opened Streams
  import Retry
  import opened Delivery

  /** Decoding any stored entry gives the message that was published as it. */
  ghost predicate Faithful(s: State) {
    && |s.published| == |s.group.log|
    && forall k | 0 <= k < |s.group.log| :: Wire.Received(s.group.log[k]) == s.published[k]
  }

  predicate Delivered(s: State, ids: seq<nat>) {
    forall k | 0 <= k < |ids| :: 1 <= ids[k] <= s.group.last
  }

  /** A loop works inside its batch. */
  predicate InBatch(loop: Loop) {
    match loop.pc
    case Check(i) => i <= |loop.batch|
    case Ready(i) => i < |loop.batch|
    case Handling(i, _, _) => i < |loop.batch|
    case Acking(i) => i < |loop.batch|
    case _ => true
  }

  /** A loop only holds delivered ids. */
  predicate HoldsOk(s: State, loop: Loop) {
    Delivered(s, loop.batch) && InBatch(loop)
  }

  ghost predicate Inv(s: State) {
    && Valid(s.group)
    && Faithful(s)
    && (forall l | l in s.loops :: HoldsOk(s, s.loops[l]))
    && (forall id | id in s.refused :: 1 <= id <= s.group.last)
  }

  lemma StepGrowsLast(cfg: Config, s: State, a: Action)
    requires Valid(s.group) && Enabled(cfg, s, a)
    ensures s.group.last <= Next(cfg, s, a).group.last
  {
    HandoutFacts(cfg, s, a);
  }

  lemma StepKeepsFaithful(cfg: Config, s: State, a: Action)
    requires Faithful(s) && Enabled(cfg, s, a)
    ensures Faithful(Next(cfg, s, a))
  {
    if a.Publish? {
      Wire.DeliveryYieldsPublished(a.message, a.entry);
    }
  }

  lemma ClaimHoldsOk(cfg: Config, s: State, a: Action)
    requires Inv(s) && a.Claim? && Enabled(cfg, s, a)
    ensures HoldsOk(Next(cfg, s, a), Next(cfg, s, a).loops[a.l])
  {
    var ids := Claims(s.group, s.loops[a.l].cursor, a.stop, cfg.minIdle, s.clock);
    ClaimsFacts(s.group, s.loops[a.l].cursor, a.stop, cfg.minIdle, s.clock);
    assert HoldsOk(s, s.loops[a.l]);
    assert forall k | 0 <= k < |ids| :: ids[k] in ids;
  }

  lemma ReadHoldsOk(cfg: Config, s: State, a: Action)
    requires Inv(s) && a.Read? && Enabled(cfg, s, a)
    ensures HoldsOk(Next(cfg, s, a), Next(cfg, s, a).loops[a.l])
  {
    var ids := NewIds(s.group, cfg.count);
    ReadNewDelivers(s.group, s.loops[a.l].owner, cfg.count, s.clock);
    assert HoldsOk(s, s.loops[a.l]);
    assert forall k | 0 <= k < |ids| :: ids[k] in ids;
  }

  lemma MoveHoldsOk(cfg: Config, s: State, a: Action)
    requires Inv(s) && Enabled(cfg, s, a) && Mover(a).Some? && !a.Claim? && !a.Read?
    ensures a.l in Next(cfg, s, a).loops && HoldsOk(Next(cfg, s, a), Next(cfg, s, a).loops[a.l])
  {
    if !a.Spawn? {
      assert HoldsOk(s, s.loops[a.l]);
    }
  }

  lemma StepKeepsHoldsOk(cfg: Config, s: State, a: Action, l: nat)
    requires Inv(s) && Enabled(cfg, s, a) && l in Next(cfg, s, a).loops
    ensures HoldsOk(Next(cfg, s, a), Next(cfg, s, a).loops[l])
  {
    if Mover(a) != Some(l) {
      OthersUnmoved(cfg, s, a, l);
      StepGrowsLast(cfg, s, a);
    } else if a.Claim? {
      ClaimHoldsOk(cfg, s, a);
    } else if a.Read? {
      ReadHoldsOk(cfg, s, a);
    } else {
      MoveHoldsOk(cfg, s, a);
    }
  }

  /** Only a handler's dead-letter publish can be refused, and its message was delivered. */
  lemma StepKeepsRefused(cfg: Config, s: State, a: Action)
    requires Inv(s) && Enabled(cfg, s, a)
    ensures forall id | id in Next(cfg, s, a).refused :: 1 <= id <= Next(cfg, s, a).group.last
  {
    StepGrowsLast(cfg, s, a);
    if a.HandlerEvent? {
      HeldIdIsDelivered(s, s.loops[a.l]);
      assert Next(cfg, s, a).refused <= s.refused + {IdAt(s.loops[a.l], s.loops[a.l].pc.i)};
    } else {
      assert Next(cfg, s, a).refused == s.refused;
    }
  }

  lemma HeldIdIsDelivered(s: State, loop: Loop)
    requires HoldsOk(s, loop) && (loop.pc.Handling? || loop.pc.Acking?)
    ensures 1 <= IdAt(loop, loop.pc.i) <= s.group.last
  {
  }

  lemma StepKeepsInv(cfg: Config, s: State, a: Action)
    requires Inv(s) && Enabled(cfg, s, a)
    ensures Inv(Next(cfg, s, a))
  {
    StepKeepsValid(cfg, s, a);
    StepKeepsFaithful(cfg, s, a);
    StepKeepsRefused(cfg, s, a);
    forall l | l in Next(cfg, s, a).loops
      ensures HoldsOk(Next(cfg, s, a), Next(cfg, s, a).loops[l])
    {
      StepKeepsHoldsOk(cfg, s, a, l);
    }
  }

  lemma {:induction false} RunKeepsInv(cfg: Config, run: seq<Action>)
    requires After(cfg, INIT, run).Some?
    ensures Inv(After(cfg, INIT, run).value)
    decreases |run|
  {
    if run == [] {
    } else {
      var n := |run| - 1;
      RunKeepsInv(cfg, run[..n]);
      StepKeepsInv(cfg, After(cfg, INIT, run[..n]).value, run[n]);
    }
  }

  // ---- Main results ----

  /** Main result. In every reachable state each published id is in exactly one of undelivered,
      pending and acknowledged, and what was stored still decodes to what was published. */
  lemma IdsArePartitioned(cfg: Config, run: seq<Action>, s: State, id: nat)
    requires After(cfg, INIT, run) == Some(s) && 1 <= id <= |s.published|
    ensures id > s.group.last <==> id !in s.group.pel && id !in s.group.acked
    ensures !(id in s.group.pel && id in s.group.acked)
    ensures |s.group.log| == |s.published| && Wire.Received(s.group.log[id - 1]) == s.published[id - 1]
  {
    RunKeepsInv(cfg, run);
  }

  lemma IncomingIsPublished(cfg: Config, s: State, loop: Loop, i: nat)
    requires Faithful(s) && 1 <= IdAt(loop, i) <= |s.group.log|
    ensures Incoming(cfg, s, loop, i) == Retry.Incoming(cfg.topic, s.published[IdAt(loop, i) - 1])
  {
  }

  lemma HandlingSeesPublished(cfg: Config, s: State, loop: Loop)
    requires Faithful(s) && Valid(s.group) && HoldsOk(s, loop) && loop.pc.Handling?
    ensures 1 <= IdAt(loop, loop.pc.i) <= |s.published|
    ensures Incoming(cfg, s, loop, loop.pc.i) == Retry.Incoming(cfg.topic, s.published[IdAt(loop, loop.pc.i) - 1])
  {
    HeldIdIsDelivered(s, loop);
    IncomingIsPublished(cfg, s, loop, loop.pc.i);
  }

  /** Main result. Whatever a handler is called with, on a first delivery or a reclaim, is the
      message that was published under the id it is handling. */
  lemma HandlerSeesPublished(cfg: Config, run: seq<Action>, s: State, l: nat, id: nat)
    requires After(cfg, INIT, run) == Some(s)
    requires l in s.loops && s.loops[l].pc.Handling? && id == IdAt(s.loops[l], s.loops[l].pc.i)
    ensures 1 <= id <= |s.published|
    ensures Incoming(cfg, s, s.loops[l], s.loops[l].pc.i) == Retry.Incoming(cfg.topic, s.published[id - 1])
  {
    RunKeepsInv(cfg, run);
    HandlingSeesPublished(cfg, s, s.loops[l]);
  }

  lemma PublishedGrows(cfg: Config, s: State, a: Action)
    requires Enabled(cfg, s, a)
    ensures s.published <= Next(cfg, s, a).published
  {
  }

  /** The published messages of an earlier state stay where they are. */
  lemma {:induction false} RunGrowsPublished(cfg: Config, s: State, run: seq<Action>)
    requires After(cfg, s, run).Some?
    ensures s.published <= After(cfg, s, run).value.published
    decreases |run|
  {
    if run == [] {
    } else {
      var n := |run| - 1;
      RunGrowsPublished(cfg, s, run[..n]);
      PublishedGrows(cfg, After(cfg, s, run[..n]).value, run[n]);
    }
  }
}
