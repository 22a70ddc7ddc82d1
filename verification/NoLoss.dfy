/** No message is lost, in any run of the delivery protocol. */
module NoLoss {
  import opened Prelude
  import Wire
  import opened Streams
  import Retry
  import RetryTheorems
  import opened Delivery
  import Fidelity

  /** A business handler succeeded on `id`, or the dead-letter broker accepted a copy of it. */
  ghost predicate Settled(s: State, id: nat) {
    id in s.succeeded || exists k :: 0 <= k < |s.dlq| && s.dlq[k].id == id
  }

  /** A loop is about to acknowledge only settled ids. */
  ghost predicate SettlesFirst(s: State, loop: Loop) {
    match loop.pc
    case Handling(i, rpc, _) => rpc == Retry.Returned(None) ==> Settled(s, IdAt(loop, i))
    case Acking(i) => loop.autoAck && Settled(s, IdAt(loop, i))
    case _ => true
  }

  ghost predicate LoopOk(s: State, loop: Loop) {
    RetryTheorems.Sound(loop.retry) && SettlesFirst(s, loop)
  }

  ghost predicate Justified(s: State) {
    forall id | id in s.group.acked :: Settled(s, id) || id in s.manual
  }

  ghost predicate Inv(s: State) {
    (forall l | l in s.loops :: LoopOk(s, s.loops[l])) && Justified(s)
  }

  /** Every handler started in the run has retry options under which a nil result means success. */
  predicate SoundSpawns(run: seq<Action>) {
    forall k | 0 <= k < |run| :: run[k].Spawn? ==> RetryTheorems.Sound(run[k].retry)
  }

  /** What counts as justification only grows. */
  ghost predicate Grows(s: State, t: State) {
    (forall id | Settled(s, id) :: Settled(t, id)) && s.manual <= t.manual
  }

  lemma SettledGrows(s: State, t: State)
    requires s.succeeded <= t.succeeded && s.dlq <= t.dlq
    ensures forall id | Settled(s, id) :: Settled(t, id)
  {
    forall id | Settled(s, id)
      ensures Settled(t, id)
    {
      if id !in s.succeeded {
        var k :| 0 <= k < |s.dlq| && s.dlq[k].id == id;
        assert t.dlq[k].id == id;
      }
    }
  }

  lemma StepGrows(cfg: Config, s: State, a: Action)
    requires Enabled(cfg, s, a)
    ensures Grows(s, Next(cfg, s, a))
  {
    SettledGrows(s, Next(cfg, s, a));
  }

  /** A handler can only come to return nil by an event that settles its message. */
  lemma HandlerEventSettles(cfg: Config, s: State, a: Action)
    requires a.HandlerEvent? && Enabled(cfg, s, a) && LoopOk(s, s.loops[a.l])
    ensures LoopOk(Next(cfg, s, a), Next(cfg, s, a).loops[a.l])
  {
    var t := Next(cfg, s, a);
    var id := IdAt(s.loops[a.l], s.loops[a.l].pc.i);
    if t.loops[a.l].pc.rpc == Retry.Returned(None) {
      if a.stored {
        assert t.dlq[|s.dlq|].id == id;
      } else {
        assert a.ev == Retry.Attempt(Retry.Ok);
        assert id in t.succeeded;
      }
    }
  }

  /** With sound options the middleware does not start out with a nil result. */
  lemma CallIsOk(cfg: Config, s: State, a: Action)
    requires a.CallHandler? && Enabled(cfg, s, a) && LoopOk(s, s.loops[a.l])
    ensures LoopOk(Next(cfg, s, a), Next(cfg, s, a).loops[a.l])
  {
  }

  lemma ReturnIsOk(cfg: Config, s: State, a: Action)
    requires a.HandlerReturns? && Enabled(cfg, s, a) && LoopOk(s, s.loops[a.l])
    ensures LoopOk(Next(cfg, s, a), Next(cfg, s, a).loops[a.l])
  {
  }

  lemma AskIsOk(cfg: Config, s: State, a: Action)
    requires a.AskDlq? && Enabled(cfg, s, a) && LoopOk(s, s.loops[a.l])
    ensures LoopOk(Next(cfg, s, a), Next(cfg, s, a).loops[a.l])
  {
  }

  /** Between messages nothing is claimed. */
  predicate Elsewhere(pc: Pc) {
    !pc.Handling? && !pc.Acking?
  }

  predicate InHandlerStep(a: Action) {
    a.HandlerEvent? || a.CallHandler? || a.HandlerReturns? || a.AskDlq?
  }

  lemma OtherMoves(cfg: Config, s: State, a: Action)
    requires Enabled(cfg, s, a) && Mover(a).Some? && !a.Spawn? && !InHandlerStep(a)
    ensures a.l in s.loops && a.l in Next(cfg, s, a).loops
    ensures Next(cfg, s, a).loops[a.l].retry == s.loops[a.l].retry
    ensures Elsewhere(Next(cfg, s, a).loops[a.l].pc) || a.LocalTick? || a.Cancel?
  {
  }

  lemma DelayIsOk(cfg: Config, s: State, a: Action)
    requires (a.LocalTick? || a.Cancel?) && Enabled(cfg, s, a) && LoopOk(s, s.loops[a.l])
    ensures LoopOk(Next(cfg, s, a), Next(cfg, s, a).loops[a.l])
  {
  }

  lemma MoverOk(cfg: Config, s: State, a: Action)
    requires Enabled(cfg, s, a) && Mover(a).Some?
    requires if a.Spawn? then RetryTheorems.Sound(a.retry) else a.l in s.loops && LoopOk(s, s.loops[a.l])
    ensures a.l in Next(cfg, s, a).loops && LoopOk(Next(cfg, s, a), Next(cfg, s, a).loops[a.l])
  {
    match a
    case Spawn(_, _, _, _) =>
    case HandlerEvent(_, _, _) => HandlerEventSettles(cfg, s, a);
    case CallHandler(_) => CallIsOk(cfg, s, a);
    case HandlerReturns(_) => ReturnIsOk(cfg, s, a);
    case AskDlq(_) => AskIsOk(cfg, s, a);
    case LocalTick(_, _) => DelayIsOk(cfg, s, a);
    case Cancel(_) => DelayIsOk(cfg, s, a);
    case _ => OtherMoves(cfg, s, a);
  }

  lemma StepKeepsJustified(cfg: Config, s: State, a: Action)
    requires Inv(s) && Enabled(cfg, s, a)
    ensures Justified(Next(cfg, s, a))
  {
    StepGrows(cfg, s, a);
    if a.AutoAck? {
      assert LoopOk(s, s.loops[a.l]);
    }
  }

  lemma StepKeepsInv(cfg: Config, s: State, a: Action)
    requires Inv(s) && Enabled(cfg, s, a)
    requires a.Spawn? ==> RetryTheorems.Sound(a.retry)
    ensures Inv(Next(cfg, s, a))
  {
    var t := Next(cfg, s, a);
    StepKeepsJustified(cfg, s, a);
    StepGrows(cfg, s, a);
    forall l | l in t.loops
      ensures LoopOk(t, t.loops[l])
    {
      if Mover(a) == Some(l) {
        if !a.Spawn? {
          MoverIsThere(cfg, s, a);
        }
        MoverOk(cfg, s, a);
      } else {
        OthersUnmoved(cfg, s, a, l);
      }
    }
  }

  lemma MoverIsThere(cfg: Config, s: State, a: Action)
    requires Enabled(cfg, s, a) && Mover(a).Some? && !a.Spawn?
    ensures a.l in s.loops
  {
  }

  lemma {:induction false} RunKeepsInv(cfg: Config, run: seq<Action>)
    requires After(cfg, INIT, run).Some? && SoundSpawns(run)
    ensures Inv(After(cfg, INIT, run).value)
    decreases |run|
  {
    if run == [] {
    } else {
      var n := |run| - 1;
      RunKeepsInv(cfg, run[..n]);
      StepKeepsInv(cfg, After(cfg, INIT, run[..n]).value, run[n]);
    }
  }

  /** Main result. If handlers are started with sound options, then in every reachable state each
      published id is in exactly one of undelivered, pending and acknowledged, and acknowledged only
      if a business handler succeeded on it, a dead-letter copy was accepted, or the handler
      acknowledged it itself. The partition alone needs no condition: `Fidelity.IdsArePartitioned`. */
  lemma NoMessageIsLost(cfg: Config, run: seq<Action>, s: State, id: nat)
    requires After(cfg, INIT, run) == Some(s) && SoundSpawns(run)
    requires 1 <= id <= |s.published|
    ensures id > s.group.last <==> id !in s.group.pel && id !in s.group.acked
    ensures !(id in s.group.pel && id in s.group.acked)
    ensures id in s.group.acked ==> Settled(s, id) || id in s.manual
  {
    RunKeepsInv(cfg, run);
    Fidelity.IdsArePartitioned(cfg, run, s, id);
  }

  // ---- What settled an id ----

  /** This step settles `id`: the business handler returns nil on it, or the server stores a dead letter for it. */
  ghost predicate Settles(s: State, a: Action, id: nat) {
    && a.HandlerEvent? && a.l in s.loops && s.loops[a.l].pc.Handling?
    && IdAt(s.loops[a.l], s.loops[a.l].pc.i) == id
    && (a.ev == Retry.Attempt(Retry.Ok) || (a.ev.DlqPublish? && a.stored))
  }

  /** Some step of the run settled `id`. */
  ghost predicate WasSettled(cfg: Config, run: seq<Action>, id: nat)
    decreases |run|
  {
    && run != []
    && var n := |run| - 1;
    && (WasSettled(cfg, run[..n], id)
        || (After(cfg, INIT, run[..n]).Some? && Settles(After(cfg, INIT, run[..n]).value, run[n], id)))
  }

  lemma StepSettles(cfg: Config, s: State, a: Action, id: nat)
    requires Enabled(cfg, s, a)
    ensures Settled(Next(cfg, s, a), id) <==> Settled(s, id) || Settles(s, a, id)
    ensures id in Next(cfg, s, a).manual <==> id in s.manual || a == ManualAck(id)
  {
    var t := Next(cfg, s, a);
    if a.HandlerEvent? && a.stored {
      assert t.dlq[|s.dlq|] == DeadLetter(IdAt(s.loops[a.l], s.loops[a.l].pc.i), a.ev.letter);
      assert forall k | 0 <= k < |s.dlq| :: t.dlq[k] == s.dlq[k];
    } else {
      assert t.dlq == s.dlq;
    }
  }

  /** An id is settled exactly if some step of the run settled it, and acknowledged by hand only by such a step. */
  lemma {:induction false} SettledIff(cfg: Config, run: seq<Action>, s: State, id: nat)
    requires After(cfg, INIT, run) == Some(s)
    ensures Settled(s, id) <==> WasSettled(cfg, run, id)
    ensures id in s.manual <==> ManualAck(id) in run
    decreases |run|
  {
    if run == [] {
    } else {
      var n := |run| - 1;
      var mid := After(cfg, INIT, run[..n]).value;
      assert run == run[..n] + [run[n]];
      SettledIff(cfg, run[..n], mid, id);
      StepSettles(cfg, mid, run[n], id);
    }
  }

  // ---- The condition on the retry options is exact ----

  function Unhandled(o: Retry.Options): seq<Action> {
    [Publish([(Wire.BODY, "")], Message(map[], "")), Spawn(0, "c", true, o), Decide(0), Claim(0, 1, false),
     CheckNext(0), Read(0, false), CheckNext(0), CallHandler(0), HandlerReturns(0), AutoAck(0, AckDone)]
  }

  /** The states of that run once the loop exists. */
  function Shape(o: Retry.Options, g: Group, deliveries: seq<Delivered>, nextClaim: int, batch: seq<nat>, src: Source,
                 pc: Pc): State {
    State(g, [Message(map[], "")], 0, true, map[0 := Loop("c", true, o, 0, 0, nextClaim, batch, src, pc, false)],
          deliveries, {}, [], {}, {})
  }

  const ENTRY: Wire.Entry := [(Wire.BODY, "")]
  const STORED: Group := Group([ENTRY], 0, map[], {})
  const HANDED_OUT: Group := Group([ENTRY], 1, map[1 := Pending("c", 0)], {})

  const MESSAGE: Message := Message(map[], "")
  const STORED_ONE: State := INIT.(group := STORED, published := [MESSAGE])
  const DELIVERED_ONCE: seq<Delivered> := [Delivered(1, 0, 0)]
  const ACKED_ONE: Group := Group([ENTRY], 1, map[], {1})

  /** The state after `k` actions of `Unhandled`. */
  function Stage(cfg: Config, o: Retry.Options, k: nat): State {
    if k == 0 then INIT
    else if k == 1 then STORED_ONE
    else if k == 2 then Shape(o, STORED, [], 0, [], FromRead, Top)
    else if k == 3 then Shape(o, STORED, [], 0, [], FromRead, AtClaim)
    else if k == 4 then Shape(o, STORED, [], 0, [], FromClaim, Check(0))
    else if k == 5 then Shape(o, STORED, [], cfg.interval, [], FromClaim, AtRead)
    else Shape(o, if k == 10 then ACKED_ONE else HANDED_OUT, DELIVERED_ONCE, cfg.interval, [1], FromRead,
               if k == 6 then Check(0) else if k == 7 then Ready(0)
               else if k == 8 then Handling(0, Retry.Returned(None), NotAsked)
               else if k == 9 then Acking(0) else Check(1))
  }

  ghost predicate Leads(cfg: Config, s: State, a: Action, t: State) {
    Enabled(cfg, s, a) && Next(cfg, s, a) == t
  }

  lemma PublishStep(cfg: Config, o: Retry.Options)
    ensures Leads(cfg, Stage(cfg, o, 0), Publish(ENTRY, MESSAGE), Stage(cfg, o, 1))
  {
    Wire.FieldsAt(MESSAGE);
    assert Wire.Fields(MESSAGE).Keys == {Wire.BODY};
    assert ENTRY[0].0 == Wire.BODY;
  }

  lemma ScanStep(cfg: Config, o: Retry.Options)
    ensures Leads(cfg, Stage(cfg, o, 3), Claim(0, 1, false), Stage(cfg, o, 4))
  {
    assert Claims(STORED, 1, 1, cfg.minIdle, 0) == [];
    assert Claims(STORED, 0, 1, cfg.minIdle, 0) == [];
    assert AutoClaim(STORED, "c", 0, 1, cfg.minIdle, 0) == STORED;
    assert NextCursor(STORED, 1) == 0;
    assert Log([], 0, 0) == [];
  }

  lemma ReadStep(cfg: Config, o: Retry.Options)
    requires cfg.count > 0
    ensures Leads(cfg, Stage(cfg, o, 5), Read(0, false), Stage(cfg, o, 6))
  {
    assert NewIds(STORED, cfg.count) == [1];
    assert ReadNew(STORED, "c", cfg.count, 0) == HANDED_OUT;
    assert Log([1], 0, 0) == DELIVERED_ONCE;
  }

  lemma AckStep(cfg: Config, o: Retry.Options)
    ensures Leads(cfg, Stage(cfg, o, 9), AutoAck(0, AckDone), Stage(cfg, o, 10))
  {
    assert Streams.Ack(HANDED_OUT, 1) == ACKED_ONE;
  }

  lemma LoopSteps(cfg: Config, o: Retry.Options, k: nat, a: Action)
    requires !RetryTheorems.Sound(o)
    requires (k, a) in {(1, Spawn(0, "c", true, o)), (2, Decide(0)), (4, CheckNext(0)), (6, CheckNext(0)),
                        (7, CallHandler(0)), (8, HandlerReturns(0))}
    ensures Leads(cfg, Stage(cfg, o, k), a, Stage(cfg, o, k + 1))
  {
  }

  lemma StageLeads(cfg: Config, o: Retry.Options, k: nat)
    requires k < 10 && cfg.count > 0 && !RetryTheorems.Sound(o)
    ensures Leads(cfg, Stage(cfg, o, k), Unhandled(o)[k], Stage(cfg, o, k + 1))
  {
    if k == 0 {
      PublishStep(cfg, o);
    } else if k == 3 {
      ScanStep(cfg, o);
    } else if k == 5 {
      ReadStep(cfg, o);
    } else if k == 9 {
      AckStep(cfg, o);
    } else {
      LoopSteps(cfg, o, k, Unhandled(o)[k]);
    }
  }

  lemma AppendLeads(cfg: Config, run: seq<Action>, s: State, a: Action, t: State)
    requires After(cfg, INIT, run) == Some(s) && Leads(cfg, s, a, t)
    ensures After(cfg, INIT, run + [a]) == Some(t)
  {
    RunAppends(cfg, INIT, run, a);
  }

  lemma {:induction false} StageReached(cfg: Config, o: Retry.Options, k: nat)
    requires k <= 10 && cfg.count > 0 && !RetryTheorems.Sound(o)
    ensures After(cfg, INIT, Unhandled(o)[..k]) == Some(Stage(cfg, o, k))
  {
    if k == 0 {
      assert Unhandled(o)[..0] == [];
    } else {
      var run := Unhandled(o);
      StageReached(cfg, o, k - 1);
      StageLeads(cfg, o, k - 1);
      AppendLeads(cfg, run[..k - 1], Stage(cfg, o, k - 1), run[k - 1], Stage(cfg, o, k));
      assert run[..k] == run[..k - 1] + [run[k - 1]];
    }
  }

  /** With a negative retry limit and no dead-letter queue the first message of a run is read and
      acknowledged without its handler ever being called. */
  lemma UnsoundOptionsLose(cfg: Config, o: Retry.Options)
    requires cfg.count > 0 && !RetryTheorems.Sound(o)
    ensures var run := Unhandled(o);
      && After(cfg, INIT, run).Some?
      && var s := After(cfg, INIT, run).value;
      && 1 in s.group.acked && !Settled(s, 1) && 1 !in s.manual
  {
    StageReached(cfg, o, 10);
    assert Unhandled(o)[..10] == Unhandled(o);
  }

  /** Every handler started in the run has options `o`. */
  predicate SpawnsOnly(run: seq<Action>, o: Retry.Options) {
    forall k | 0 <= k < |run| :: run[k].Spawn? ==> run[k].retry == o
  }

  ghost predicate NeverLoses(cfg: Config, o: Retry.Options) {
    forall run: seq<Action> | After(cfg, INIT, run).Some? && SpawnsOnly(run, o) ::
      Justified(After(cfg, INIT, run).value)
  }

  /** Handlers with options `o` never lose a message if and only if a nil result of theirs means
      success: the retry limit is not negative or a dead-letter queue is configured. */
  lemma NeverLosesIffSound(cfg: Config, o: Retry.Options)
    requires cfg.count > 0
    ensures NeverLoses(cfg, o) <==> RetryTheorems.Sound(o)
  {
    if RetryTheorems.Sound(o) {
      forall run: seq<Action> | After(cfg, INIT, run).Some? && SpawnsOnly(run, o)
        ensures Justified(After(cfg, INIT, run).value)
      {
        RunKeepsInv(cfg, run);
      }
    } else {
      UnsoundOptionsLose(cfg, o);
      assert SpawnsOnly(Unhandled(o), o);
    }
  }

  /** Main result. A message whose dead-letter publish was refused is pending, unless it has been
      settled or acknowledged by its handler some other way. */
  lemma RefusedStaysPending(cfg: Config, run: seq<Action>, s: State, id: nat)
    requires After(cfg, INIT, run) == Some(s) && SoundSpawns(run)
    requires id in s.refused && !Settled(s, id) && id !in s.manual
    ensures id in s.group.pel
  {
    RunKeepsInv(cfg, run);
    Fidelity.RunKeepsInv(cfg, run);
  }
}
