/** Shutting down while a handler runs out of retries: the broker with its lock and the delivery
    protocol side by side, where a dead-letter publish looks at the very `connected` field that
    `Connect` and `Disconnect` write. Everything else is interleaved freely, which allows more than the
    code does. */
module ShutdownRetry {
  import opened Prelude
  import Streams
  import Retry
  import D = Delivery
  import M = BrokerMutex
  import Fidelity
  import NoLoss
  import Recovery
  import GracefulStop

  datatype State = State(m: M.State, d: D.State)

  const INIT: State := State(M.INIT, D.INIT.(connected := false))

  /** `AsksDlq` is the look of a dead-letter publish at the broker, by the handler of loop `l`. */
  datatype Action = OfBroker(a: M.Action) | OfDelivery(b: D.Action) | AsksDlq(l: nat)

  ghost predicate Enabled(cfg: D.Config, s: State, a: Action) {
    match a
    case OfBroker(b) => M.Enabled(s.m, b)
    case OfDelivery(b) => D.Enabled(cfg, s.d, b) && !b.SetConnected? && !b.AskDlq?
    case AsksDlq(l) => M.Enabled(s.m, M.Look(M.Handler(l))) && D.Enabled(cfg, s.d, D.AskDlq(l))
  }

  function Next(cfg: D.Config, s: State, a: Action): State
    requires Enabled(cfg, s, a)
  {
    match a
    case OfBroker(b) =>
      var m := M.Next(s.m, b);
      State(m, s.d.(connected := m.life.broker.connected))
    case OfDelivery(b) => s.(d := D.Next(cfg, s.d, b))
    case AsksDlq(l) => State(M.Next(s.m, M.Look(M.Handler(l))), D.Next(cfg, s.d, D.AskDlq(l)))
  }

  ghost function After(cfg: D.Config, s: State, run: seq<Action>): Option<State>
    decreases |run|
  {
    if run == [] then Some(s)
    else match After(cfg, s, run[..|run| - 1])
         case None => None
         case Some(mid) =>
           if Enabled(cfg, mid, run[|run| - 1]) then Some(Next(cfg, mid, run[|run| - 1])) else None
  }

  // ---- What each side sees ----

  function BrokerPart(a: Action): seq<M.Action> {
    match a
    case OfBroker(b) => [b]
    case OfDelivery(_) => []
    case AsksDlq(l) => [M.Look(M.Handler(l))]
  }

  function BrokerRun(run: seq<Action>): seq<M.Action> {
    if run == [] then [] else BrokerRun(run[..|run| - 1]) + BrokerPart(run[|run| - 1])
  }

  lemma BrokerAppends(run: seq<M.Action>, s: M.State, b: M.Action)
    requires M.After(M.INIT, run) == Some(s) && M.Enabled(s, b)
    ensures M.After(M.INIT, run + [b]) == Some(M.Next(s, b))
  {
    assert (run + [b])[..|run|] == run;
  }

  lemma {:induction false} RunsBroker(cfg: D.Config, run: seq<Action>)
    requires After(cfg, INIT, run).Some?
    ensures M.After(M.INIT, BrokerRun(run)) == Some(After(cfg, INIT, run).value.m)
    decreases |run|
  {
    if run == [] {
    } else {
      var n := |run| - 1;
      var mid := After(cfg, INIT, run[..n]).value;
      RunsBroker(cfg, run[..n]);
      match run[n] {
        case OfBroker(b) => BrokerAppends(BrokerRun(run[..n]), mid.m, b);
        case OfDelivery(_) => assert BrokerRun(run[..n]) + [] == BrokerRun(run[..n]);
        case AsksDlq(l) => BrokerAppends(BrokerRun(run[..n]), mid.m, M.Look(M.Handler(l)));
      }
    }
  }

  /** `connected` is as the broker's step leaves it. */
  function DeliveryPart(a: Action, connected: bool): D.Action {
    match a
    case OfBroker(_) => D.SetConnected(connected)
    case OfDelivery(b) => b
    case AsksDlq(l) => D.AskDlq(l)
  }

  ghost function DeliveryRun(cfg: D.Config, s: State, run: seq<Action>): seq<D.Action>
    requires After(cfg, s, run).Some?
    decreases |run|
  {
    if run == [] then []
    else
      DeliveryRun(cfg, s, run[..|run| - 1])
      + [DeliveryPart(run[|run| - 1], After(cfg, s, run).value.m.life.broker.connected)]
  }

  lemma DeliveryStep(cfg: D.Config, s: State, a: Action)
    requires Enabled(cfg, s, a)
    ensures var b := DeliveryPart(a, Next(cfg, s, a).m.life.broker.connected);
      D.Enabled(cfg, s.d, b) && D.Next(cfg, s.d, b) == Next(cfg, s, a).d
  {
  }

  /** Every joint run is a run of the delivery protocol. */
  lemma {:induction false} RunsDelivery(cfg: D.Config, s: State, run: seq<Action>)
    requires After(cfg, s, run).Some?
    ensures D.After(cfg, s.d, DeliveryRun(cfg, s, run)) == Some(After(cfg, s, run).value.d)
    decreases |run|
  {
    if run == [] {
    } else {
      var n := |run| - 1;
      var mid, t := After(cfg, s, run[..n]).value, After(cfg, s, run).value;
      RunsDelivery(cfg, s, run[..n]);
      DeliveryStep(cfg, mid, run[n]);
      D.RunAppends(cfg, s.d, DeliveryRun(cfg, s, run[..n]), DeliveryPart(run[n], t.m.life.broker.connected));
    }
  }

  lemma DeliveryKeepsConnected(cfg: D.Config, d: D.State, b: D.Action)
    requires D.Enabled(cfg, d, b) && !b.SetConnected?
    ensures D.Next(cfg, d, b).connected == d.connected
  {
  }

  /** The publish sees the broker's own field. */
  lemma {:induction false} SidesAgree(cfg: D.Config, run: seq<Action>)
    requires After(cfg, INIT, run).Some?
    ensures var s := After(cfg, INIT, run).value; s.d.connected == s.m.life.broker.connected
    decreases |run|
  {
    if run == [] {
    } else {
      var n := |run| - 1;
      var mid := After(cfg, INIT, run[..n]).value;
      SidesAgree(cfg, run[..n]);
      match run[n] {
        case OfBroker(_) =>
        case OfDelivery(b) => DeliveryKeepsConnected(cfg, mid.d, b);
        case AsksDlq(l) => DeliveryKeepsConnected(cfg, mid.d, D.AskDlq(l));
      }
    }
  }

  // ---- A dead letter during a drain ----

  lemma DrainIsSeen(cfg: D.Config, run: seq<Action>, s: State)
    requires After(cfg, INIT, run) == Some(s) && s.m.life.broker.draining.Some?
    ensures !s.d.connected
  {
    SidesAgree(cfg, run);
    RunsBroker(cfg, run);
    M.RunsBelow(BrokerRun(run));
    GracefulStop.DrainExcludes(M.LifeRun(BrokerRun(run)), s.m.life);
  }

  /** Steps of others than loop `l`. */
  predicate LeavesLoop(run: seq<Action>, l: nat) {
    forall k | 0 <= k < |run| ::
      match run[k]
      case OfBroker(_) => true
      case OfDelivery(b) => D.Mover(b) != Some(l)
      case AsksDlq(m) => m != l
  }

  lemma {:induction false} LoopStays(cfg: D.Config, s: State, run: seq<Action>, l: nat)
    requires After(cfg, s, run).Some? && LeavesLoop(run, l) && l in s.d.loops
    ensures l in After(cfg, s, run).value.d.loops && After(cfg, s, run).value.d.loops[l] == s.d.loops[l]
    decreases |run|
  {
    if run == [] {
    } else {
      var n := |run| - 1;
      var mid := After(cfg, s, run[..n]).value;
      assert forall k | 0 <= k < n :: run[..n][k] == run[k];
      LoopStays(cfg, s, run[..n], l);
      match run[n] {
        case OfBroker(_) =>
        case OfDelivery(b) => D.OthersUnmoved(cfg, mid.d, b, l);
        case AsksDlq(m) => D.OthersUnmoved(cfg, mid.d, D.AskDlq(m), l);
      }
    }
  }

  lemma ClosedGateRefuses(cfg: D.Config, d: D.State, l: nat, ev: Retry.Event, stored: bool)
    requires ev.DlqPublish? && D.Enabled(cfg, d, D.HandlerEvent(l, ev, stored)) && d.loops[l].pc.gate == D.Closed
    ensures !stored && ev.refused.Some?
    ensures var e := D.Next(cfg, d, D.HandlerEvent(l, ev, stored));
      && e.group == d.group && e.dlq == d.dlq
      && e.refused == d.refused + {D.IdAt(d.loops[l], d.loops[l].pc.i)}
      && e.loops[l].pc.Handling? && e.loops[l].pc.rpc.Returned? && e.loops[l].pc.rpc.err.Some?
  {
  }

  lemma AskClosesGate(cfg: D.Config, s: State, l: nat)
    requires Enabled(cfg, s, AsksDlq(l)) && !s.d.connected
    ensures l in s.d.loops && s.d.loops[l].pc.Handling? && l in Next(cfg, s, AsksDlq(l)).d.loops
    ensures Next(cfg, s, AsksDlq(l)).d.loops[l] == s.d.loops[l].(pc := s.d.loops[l].pc.(gate := D.Closed))
  {
  }

  /** Main result. A dead-letter publish that looks at the broker while it drains is refused, however
      long it takes and whatever others do meanwhile: the middleware returns an error, and the message
      is one of the refused. */
  lemma DrainRefusesDeadLetter(cfg: D.Config, run: seq<Action>, s: State, l: nat, more: seq<Action>, t: State,
                               ev: Retry.Event, stored: bool)
    requires After(cfg, INIT, run) == Some(s) && s.m.life.broker.draining.Some? && Enabled(cfg, s, AsksDlq(l))
    requires After(cfg, Next(cfg, s, AsksDlq(l)), more) == Some(t) && LeavesLoop(more, l)
    requires ev.DlqPublish? && Enabled(cfg, t, OfDelivery(D.HandlerEvent(l, ev, stored)))
    ensures !stored && ev.refused.Some?
    ensures var u := Next(cfg, t, OfDelivery(D.HandlerEvent(l, ev, stored)));
      && u.d.group == t.d.group && D.IdAt(s.d.loops[l], s.d.loops[l].pc.i) in u.d.refused
      && u.d.loops[l].pc.Handling? && u.d.loops[l].pc.rpc.Returned? && u.d.loops[l].pc.rpc.err.Some?
  {
    DrainIsSeen(cfg, run, s);
    AskClosesGate(cfg, s, l);
    LoopStays(cfg, Next(cfg, s, AsksDlq(l)), more, l);
    ClosedGateRefuses(cfg, t.d, l, ev, stored);
  }

  /** The delivery side of a joint run from the very start. */
  ghost function WholeDeliveryRun(cfg: D.Config, run: seq<Action>): seq<D.Action>
    requires After(cfg, INIT, run).Some?
  {
    [D.SetConnected(false)] + DeliveryRun(cfg, INIT, run)
  }

  lemma RunsWholeDelivery(cfg: D.Config, run: seq<Action>)
    requires After(cfg, INIT, run).Some?
    ensures D.After(cfg, D.INIT, WholeDeliveryRun(cfg, run)) == Some(After(cfg, INIT, run).value.d)
  {
    var first := [D.SetConnected(false)];
    assert first[..0] == [];
    assert D.After(cfg, D.INIT, first) == Some(INIT.d);
    RunsDelivery(cfg, INIT, run);
    D.RunsConcat(cfg, D.INIT, first, DeliveryRun(cfg, INIT, run));
  }

  /** Main result. Shutdown while retries run out loses nothing: in every run, a message whose dead letter
      was refused is pending unless settled otherwise, and once it has been idle long enough the scans of
      any one loop hand it out again, whatever publishers, drains, crashes and other loops do. */
  lemma RefusedIsRecovered(cfg: D.Config, run: seq<Action>, s: State, id: nat, more: seq<Action>, t: State, l: nat)
    requires After(cfg, INIT, run) == Some(s) && NoLoss.SoundSpawns(WholeDeliveryRun(cfg, run))
    requires id in s.d.refused && !NoLoss.Settled(s.d, id) && id !in s.d.manual
    requires After(cfg, s, more) == Some(t)
    ensures id in s.d.group.pel
    ensures && cfg.count > 0 && l in s.d.loops && s.d.clock - s.d.group.pel[id].at >= cfg.minIdle
            && Recovery.Scans(l, DeliveryRun(cfg, s, more))
               > Max(0, t.d.group.last - s.d.loops[l].cursor) + 1 + id
            ==> && D.After(cfg, s.d, DeliveryRun(cfg, s, more)).Some?
                && Recovery.Recovered(cfg, s.d, DeliveryRun(cfg, s, more), id)
  {
    RunsWholeDelivery(cfg, run);
    NoLoss.RefusedStaysPending(cfg, WholeDeliveryRun(cfg, run), s.d, id);
    Fidelity.RunKeepsInv(cfg, WholeDeliveryRun(cfg, run));
    RunsDelivery(cfg, s, more);
    if && cfg.count > 0 && l in s.d.loops && Streams.Idle(s.d.group, id, cfg.minIdle, s.d.clock)
       && Recovery.Scans(l, DeliveryRun(cfg, s, more))
          > Max(0, t.d.group.last - s.d.loops[l].cursor) + 1 + id {
      Recovery.IdleEntryIsRecovered(cfg, s.d, DeliveryRun(cfg, s, more), t.d, l, id);
    }
  }
}
