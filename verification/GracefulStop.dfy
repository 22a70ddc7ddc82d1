/** The consumer on top of the broker: its wait group, its entries and its graceful stop; and the
    main results about every run of the lifecycle. */
module GracefulStop {
  import opened Prelude
  import opened Lifecycle
  import opened DrainSafety

  /** The running handlers that the consumer's wait group counts. */
  function Running(s: State): set<nat> {
    set x | x in s.subs && s.subs[x].ofConsumer && s.subs[x].loop == InHandler
  }

  /** The consumer's subscriptions that `Stop` is waiting for under the consumer's lock. */
  function Joining(s: State): set<nat> {
    if s.holder.Some? && s.holder.value in s.threads && s.threads[s.holder.value].StopUnsub?
    then s.threads[s.holder.value].toJoin else {}
  }

  predicate Holds(pc: Pc) {
    InStart(pc) || pc.StopUnsub?
  }

  /** Every live loop of the consumer is one of its entries or being waited for. */
  ghost predicate EntriesOk(s: State) {
    && (forall x | x in s.entries :: x in s.subs)
    && (forall x | x in s.subs && s.subs[x].ofConsumer && s.subs[x].loop != Ended :: x in s.entries || x in Joining(s))
  }

  /** While `Stop` is under way the consumer has no entries, and past its lock nothing to wait for. */
  ghost predicate StoppedOk(s: State, pc: Pc) {
    Stopping(pc) ==> s.entries == {} && (Joining(s) == {} || pc.StopUnsub?)
  }

  /** The consumer's lock has one holder, and `Start` excludes `Stop`. */
  ghost predicate LockOk(s: State) {
    && (s.holder.Some? ==> s.holder.value in s.threads && Holds(s.threads[s.holder.value]))
    && (forall t | t in s.threads && Holds(s.threads[t]) :: s.holder == Some(t))
    && (forall t, u | t in s.threads && u in s.threads && InStart(s.threads[t]) :: !Stopping(s.threads[u]))
    && (forall t | t in s.threads :: StoppedOk(s, s.threads[t]))
  }

  ghost predicate ConsumerOk(s: State) {
    s.inFlight == |Running(s)| && EntriesOk(s) && LockOk(s)
  }

  // ---- The wait group ----

  lemma SameRunning(s: State, t: State)
    requires forall x :: x in t.subs && t.subs[x].ofConsumer && t.subs[x].loop == InHandler <==>
                         x in s.subs && s.subs[x].ofConsumer && s.subs[x].loop == InHandler
    ensures Running(t) == Running(s)
  {
  }

  lemma EnterCounts(s: State, x: nat)
    requires s.inFlight == |Running(s)| && SubEnabled(s, HandlerEnters(x))
    ensures SubNext(s, HandlerEnters(x)).inFlight == |Running(SubNext(s, HandlerEnters(x)))|
  {
    var t := SubNext(s, HandlerEnters(x));
    if s.subs[x].ofConsumer {
      assert Running(t) == Running(s) + {x};
    } else {
      SameRunning(s, t);
    }
  }

  lemma LeaveCounts(s: State, x: nat)
    requires s.inFlight == |Running(s)| && SubEnabled(s, HandlerLeaves(x))
    ensures SubNext(s, HandlerLeaves(x)).inFlight == |Running(SubNext(s, HandlerLeaves(x)))|
  {
    var t := SubNext(s, HandlerLeaves(x));
    if s.subs[x].ofConsumer {
      assert Running(t) == Running(s) - {x};
    } else {
      SameRunning(s, t);
    }
  }

  lemma SubCounts(s: State, a: SubAction)
    requires s.inFlight == |Running(s)| && SubEnabled(s, a)
    ensures SubNext(s, a).inFlight == |Running(SubNext(s, a))|
  {
    match a
    case HandlerEnters(x) => EnterCounts(s, x);
    case HandlerLeaves(x) => LeaveCounts(s, x);
    case _ => SameRunning(s, SubNext(s, a));
  }

  lemma ConsumerCounts(s: State, a: ConsumerAction)
    requires s.inFlight == |Running(s)| && ConsumerEnabled(s, a)
    ensures ConsumerNext(s, a).inFlight == |Running(ConsumerNext(s, a))|
  {
    SameRunning(s, ConsumerNext(s, a));
  }

  lemma StepCounts(s: State, a: Action)
    requires s.inFlight == |Running(s)| && Enabled(s, a)
    ensures Next(s, a).inFlight == |Running(Next(s, a))|
  {
    match a
    case OfBroker(b) => SameRunning(s, BrokerNext(s, b));
    case OfSub(u) => SubCounts(s, u);
    case OfConsumer(c) => ConsumerCounts(s, c);
  }

  // ---- Entries and lock ----

  /** Steps of the broker and of the loops leave the consumer's own fields alone. */
  ghost predicate LeavesConsumer(s: State, t: State) {
    && t.entries == s.entries && t.holder == s.holder && Joining(t) == Joining(s)
    && (forall x | x in s.subs :: x in t.subs)
    && (forall x | x in t.subs && t.subs[x].ofConsumer && t.subs[x].loop != Ended ::
          x in s.subs && s.subs[x].ofConsumer && s.subs[x].loop != Ended)
    && (forall u | u in t.threads && (Holds(t.threads[u]) || Stopping(t.threads[u])) ::
          u in s.threads && s.threads[u] == t.threads[u])
    && (forall u | u in s.threads && Holds(s.threads[u]) :: u in t.threads && t.threads[u] == s.threads[u])
  }

  lemma BrokerMoves(s: State, a: BrokerAction)
    requires BrokerEnabled(s, a)
    ensures var t := BrokerNext(s, a);
      && a.t in t.threads && t.threads == s.threads[a.t := t.threads[a.t]]
      && !Holds(t.threads[a.t]) && !Stopping(t.threads[a.t])
      && (a.t in s.threads ==> !Holds(s.threads[a.t]))
      && t.entries == s.entries && t.holder == s.holder
  {
    BrokerMovesOne(s, a);
    BrokerLeavesHolder(s, a);
  }

  lemma BrokerLeavesHolder(s: State, a: BrokerAction)
    requires BrokerEnabled(s, a)
    ensures BrokerNext(s, a).entries == s.entries && BrokerNext(s, a).holder == s.holder
    ensures a.t in s.threads ==> !Holds(s.threads[a.t])
  {
  }

  lemma BrokerKeepsLoops(s: State, a: BrokerAction)
    requires BrokerEnabled(s, a)
    ensures var t := BrokerNext(s, a);
      && t.subs.Keys == s.subs.Keys
      && forall x | x in s.subs :: t.subs[x].ofConsumer == s.subs[x].ofConsumer && t.subs[x].loop == s.subs[x].loop
  {
  }

  lemma BrokerLeavesConsumer(s: State, a: BrokerAction)
    requires LockOk(s) && BrokerEnabled(s, a)
    ensures LeavesConsumer(s, BrokerNext(s, a))
  {
    BrokerMoves(s, a);
    BrokerKeepsLoops(s, a);
    MoveLeavesConsumer(s, BrokerNext(s, a), a.t);
  }

  lemma MoveLeavesConsumer(s: State, t: State, u: nat)
    requires LockOk(s) && u in t.threads && t.threads == s.threads[u := t.threads[u]]
    requires !Holds(t.threads[u]) && !Stopping(t.threads[u]) && (u in s.threads ==> !Holds(s.threads[u]))
    requires t.entries == s.entries && t.holder == s.holder && t.subs.Keys == s.subs.Keys
    requires forall x | x in s.subs :: t.subs[x].ofConsumer == s.subs[x].ofConsumer && t.subs[x].loop == s.subs[x].loop
    ensures LeavesConsumer(s, t)
  {
  }

  lemma LoopStepLeavesConsumer(s: State, a: SubAction)
    requires SubEnabled(s, a) && Mover(OfSub(a)).None?
    ensures LeavesConsumer(s, SubNext(s, a))
  {
    assert SubNext(s, a).threads == s.threads;
  }

  lemma UnsubscribeLeavesConsumer(s: State, a: SubAction)
    requires LockOk(s) && SubEnabled(s, a) && Mover(OfSub(a)).Some?
    ensures LeavesConsumer(s, SubNext(s, a))
  {
    var t := SubNext(s, a);
    assert t.threads == s.threads[a.t := t.threads[a.t]];
    MoveLeavesConsumer(s, t, a.t);
  }

  lemma SubLeavesConsumer(s: State, a: SubAction)
    requires LockOk(s) && SubEnabled(s, a)
    ensures LeavesConsumer(s, SubNext(s, a))
  {
    if Mover(OfSub(a)).None? {
      LoopStepLeavesConsumer(s, a);
    } else {
      UnsubscribeLeavesConsumer(s, a);
    }
  }

  lemma LeftAlone(s: State, t: State)
    requires EntriesOk(s) && LockOk(s) && LeavesConsumer(s, t)
    ensures EntriesOk(t) && LockOk(t)
  {
  }

  lemma StartKeepsEntries(s: State, a: ConsumerAction)
    requires EntriesOk(s) && LockOk(s) && ConsumerEnabled(s, a) && IsStart(a)
    ensures EntriesOk(ConsumerNext(s, a))
  {
    ConsumerGrows(s, a);
  }

  lemma StopBeginKeepsEntries(s: State, t: nat)
    requires EntriesOk(s) && LockOk(s) && ConsumerEnabled(s, StopBegins(t))
    ensures EntriesOk(ConsumerNext(s, StopBegins(t)))
  {
  }

  lemma StopKeepsEntries(s: State, a: ConsumerAction)
    requires EntriesOk(s) && LockOk(s) && ConsumerEnabled(s, a) && !IsStart(a) && !a.StopBegins?
    ensures EntriesOk(ConsumerNext(s, a))
  {
    ConsumerGrows(s, a);
  }

  lemma ConsumerKeepsEntries(s: State, a: ConsumerAction)
    requires EntriesOk(s) && LockOk(s) && ConsumerEnabled(s, a)
    ensures EntriesOk(ConsumerNext(s, a))
  {
    if IsStart(a) {
      StartKeepsEntries(s, a);
    } else if a.StopBegins? {
      StopBeginKeepsEntries(s, a.t);
    } else {
      StopKeepsEntries(s, a);
    }
  }

  lemma StartKeepsHolder(s: State, a: ConsumerAction)
    requires LockOk(s) && ConsumerEnabled(s, a) && IsStart(a)
    ensures var t := ConsumerNext(s, a);
      && (t.holder.Some? ==> t.holder.value in t.threads && Holds(t.threads[t.holder.value]))
      && (forall u | u in t.threads && Holds(t.threads[u]) :: t.holder == Some(u))
  {
  }

  lemma StopKeepsHolder(s: State, a: ConsumerAction)
    requires LockOk(s) && ConsumerEnabled(s, a) && !IsStart(a)
    ensures var t := ConsumerNext(s, a);
      && (t.holder.Some? ==> t.holder.value in t.threads && Holds(t.threads[t.holder.value]))
      && (forall u | u in t.threads && Holds(t.threads[u]) :: t.holder == Some(u))
  {
  }

  lemma ConsumerKeepsHolder(s: State, a: ConsumerAction)
    requires LockOk(s) && ConsumerEnabled(s, a)
    ensures var t := ConsumerNext(s, a);
      && (t.holder.Some? ==> t.holder.value in t.threads && Holds(t.threads[t.holder.value]))
      && (forall u | u in t.threads && Holds(t.threads[u]) :: t.holder == Some(u))
  {
    if IsStart(a) {
      StartKeepsHolder(s, a);
    } else {
      StopKeepsHolder(s, a);
    }
  }

  lemma StartKeepsExclusion(s: State, a: ConsumerAction)
    requires LockOk(s) && ConsumerEnabled(s, a) && IsStart(a)
    ensures var t := ConsumerNext(s, a);
      forall u, v | u in t.threads && v in t.threads && InStart(t.threads[u]) :: !Stopping(t.threads[v])
  {
  }

  lemma StopKeepsExclusion(s: State, a: ConsumerAction)
    requires LockOk(s) && ConsumerEnabled(s, a) && !IsStart(a)
    ensures var t := ConsumerNext(s, a);
      forall u, v | u in t.threads && v in t.threads && InStart(t.threads[u]) :: !Stopping(t.threads[v])
  {
  }

  lemma ConsumerKeepsExclusion(s: State, a: ConsumerAction)
    requires LockOk(s) && ConsumerEnabled(s, a)
    ensures var t := ConsumerNext(s, a);
      forall u, v | u in t.threads && v in t.threads && InStart(t.threads[u]) :: !Stopping(t.threads[v])
  {
    if IsStart(a) {
      StartKeepsExclusion(s, a);
    } else {
      StopKeepsExclusion(s, a);
    }
  }

  lemma StartMeansNoneStops(s: State, a: ConsumerAction)
    requires LockOk(s) && ConsumerEnabled(s, a) && IsStart(a)
    ensures a.t in s.threads && forall u | u in s.threads :: !Stopping(s.threads[u])
  {
    if !a.StartBegins? {
      assert InStart(s.threads[a.t]);
    }
  }

  lemma StartMoverStopsNot(s: State, a: ConsumerAction)
    requires ConsumerEnabled(s, a) && IsStart(a) && a.t in ConsumerNext(s, a).threads
    ensures !Stopping(ConsumerNext(s, a).threads[a.t])
  {
  }

  lemma StartKeepsStopped(s: State, a: ConsumerAction, u: nat)
    requires LockOk(s) && ConsumerEnabled(s, a) && IsStart(a) && u in ConsumerNext(s, a).threads
    ensures StoppedOk(ConsumerNext(s, a), ConsumerNext(s, a).threads[u])
  {
    StartMeansNoneStops(s, a);
    if a.t == u {
      StartMoverStopsNot(s, a);
    } else {
      ConsumerMovesOne(s, a, u);
    }
  }

  lemma StopKeepsStopped(s: State, a: ConsumerAction, u: nat)
    requires LockOk(s) && ConsumerEnabled(s, a) && !IsStart(a) && u in ConsumerNext(s, a).threads
    ensures StoppedOk(ConsumerNext(s, a), ConsumerNext(s, a).threads[u])
  {
    if a.t != u {
      assert StoppedOk(s, s.threads[u]);
    }
    assert StoppedOk(s, s.threads[a.t]);
  }

  lemma ConsumerKeepsStopped(s: State, a: ConsumerAction, u: nat)
    requires LockOk(s) && ConsumerEnabled(s, a) && u in ConsumerNext(s, a).threads
    ensures StoppedOk(ConsumerNext(s, a), ConsumerNext(s, a).threads[u])
  {
    if IsStart(a) {
      StartKeepsStopped(s, a, u);
    } else {
      StopKeepsStopped(s, a, u);
    }
  }

  lemma ConsumerKeepsLock(s: State, a: ConsumerAction)
    requires LockOk(s) && ConsumerEnabled(s, a)
    ensures LockOk(ConsumerNext(s, a))
  {
    ConsumerKeepsHolder(s, a);
    ConsumerKeepsExclusion(s, a);
    forall u | u in ConsumerNext(s, a).threads
      ensures StoppedOk(ConsumerNext(s, a), ConsumerNext(s, a).threads[u])
    {
      ConsumerKeepsStopped(s, a, u);
    }
  }

  lemma StepKeepsConsumerOk(s: State, a: Action)
    requires Inv(s) && ConsumerOk(s) && Enabled(s, a)
    ensures ConsumerOk(Next(s, a))
  {
    StepCounts(s, a);
    match a
    case OfBroker(b) =>
      BrokerLeavesConsumer(s, b);
      LeftAlone(s, BrokerNext(s, b));
    case OfSub(u) =>
      SubLeavesConsumer(s, u);
      LeftAlone(s, SubNext(s, u));
    case OfConsumer(c) =>
      ConsumerKeepsEntries(s, c);
      ConsumerKeepsLock(s, c);
  }

  lemma {:induction false} RunKeepsInv(run: seq<Action>)
    requires After(INIT, run).Some?
    ensures Inv(After(INIT, run).value) && ConsumerOk(After(INIT, run).value)
    decreases |run|
  {
    if run == [] {
      assert Running(INIT) == {};
    } else {
      var n := |run| - 1;
      RunKeepsInv(run[..n]);
      StepKeepsInv(After(INIT, run[..n]).value, run[n]);
      StepKeepsConsumerOk(After(INIT, run[..n]).value, run[n]);
    }
  }

  // ---- Main results ----

  /** When any call of `Disconnect` returns, initiator or waiter, every subscriber that was
      registered when it was called has closed `done`. */
  lemma DisconnectDrains(run: seq<Action>, s: State, t: nat, x: nat)
    requires After(INIT, run) == Some(s) && t in s.threads && s.threads[t].DiscReturned?
    requires x in s.threads[t].before
    ensures HasEnded(s, x)
  {
    RunKeepsInv(run);
    assert ThreadOk(s, s.threads[t]);
  }

  /** During a drain the broker is not connected, every live loop is one the drain has captured, and
      neither `Subscribe` nor `Connect` can succeed. At no time is a channel closed twice. */
  lemma DrainExcludes(run: seq<Action>, s: State)
    requires After(INIT, run) == Some(s)
    ensures s.broker.draining.Some? ==> !s.broker.connected
    ensures s.broker.draining.Some? ==> forall x | x in s.subs && s.subs[x].loop != Ended :: x in Captured(s)
    ensures s.broker.draining.Some? ==> forall x :: !Enabled(s, OfSub(Subscribe(x)))
    ensures s.broker.draining.Some? ==> forall t, x :: !Enabled(s, OfConsumer(StartSubscribes(t, x)))
    ensures s.broker.draining.Some? ==> forall accepted ::
              ConnectSection(s.broker, accepted) == (s.broker, ConnectWaits(s.broker.draining.value))
    ensures forall c | c in s.closes :: s.closes[c] <= 1
    ensures forall x | x in s.subs :: s.subs[x].exitCloses <= 1
  {
    RunKeepsInv(run);
  }

  /** `Unsubscribe` returns only after its loop has ended. */
  lemma UnsubscribeWaits(run: seq<Action>, s: State, t: nat)
    requires After(INIT, run) == Some(s) && t in s.threads && s.threads[t].UnsubReturned?
    ensures HasEnded(s, s.threads[t].x)
  {
    RunKeepsInv(run);
    assert ThreadOk(s, s.threads[t]);
  }

  /** The consumer's wait group always equals the number of its running handlers. Once `Stop` has
      released its lock, so in particular when it calls `Disconnect`, none of them runs and all of
      the consumer's loops have ended. */
  lemma StopIsGraceful(run: seq<Action>, s: State, t: nat)
    requires After(INIT, run) == Some(s)
    ensures s.inFlight == |Running(s)|
    ensures t in s.threads && (s.threads[t].StopUnlocked? || s.threads[t].StopDrain? || s.threads[t].StopDisc?) ==>
              s.inFlight == 0 && forall x | x in s.subs && s.subs[x].ofConsumer :: HasEnded(s, x)
  {
    RunKeepsInv(run);
    if t in s.threads && (s.threads[t].StopUnlocked? || s.threads[t].StopDrain? || s.threads[t].StopDisc?) {
      assert StoppedOk(s, s.threads[t]);
      assert Running(s) == {};
    }
  }

  /** Whoever waits on `channel` is woken: it is closed, or the drain that will close it lasts. */
  predicate WillWake(s: State, channel: nat) {
    Closed(s, channel) || s.broker.draining == Some(channel)
  }

  predicate Waits(pc: Pc) {
    pc.ConnectWait? || pc.DiscWait? || pc.StartWait?
  }

  ghost predicate WaitersOk(s: State) {
    forall t | t in s.threads && Waits(s.threads[t]) :: WillWake(s, s.threads[t].channel)
  }

  lemma StepKeepsWillWake(s: State, a: Action, c: nat)
    requires DrainOk(s) && Enabled(s, a) && WillWake(s, c)
    ensures WillWake(Next(s, a), c)
  {
    StepGrows(s, a);
  }

  lemma NewBrokerWaiter(s: State, a: BrokerAction)
    requires BrokerEnabled(s, a) && a.t in BrokerNext(s, a).threads && Waits(BrokerNext(s, a).threads[a.t])
    ensures WillWake(BrokerNext(s, a), BrokerNext(s, a).threads[a.t].channel)
  {
  }

  lemma NewSubMoverWaitsNot(s: State, a: SubAction, u: nat)
    requires SubEnabled(s, a) && Mover(OfSub(a)) == Some(u) && u in SubNext(s, a).threads
    ensures !Waits(SubNext(s, a).threads[u])
  {
  }

  lemma NewConsumerWaiter(s: State, a: ConsumerAction)
    requires ConsumerEnabled(s, a) && a.t in ConsumerNext(s, a).threads && Waits(ConsumerNext(s, a).threads[a.t])
    ensures WillWake(ConsumerNext(s, a), ConsumerNext(s, a).threads[a.t].channel)
  {
  }

  lemma NewWaiter(s: State, a: Action, u: nat)
    requires Enabled(s, a) && Mover(a) == Some(u) && u in Next(s, a).threads && Waits(Next(s, a).threads[u])
    ensures WillWake(Next(s, a), Next(s, a).threads[u].channel)
  {
    match a
    case OfBroker(b) => NewBrokerWaiter(s, b);
    case OfSub(w) => NewSubMoverWaitsNot(s, w, u);
    case OfConsumer(c) => NewConsumerWaiter(s, c);
  }

  lemma StepKeepsWaitersOk(s: State, a: Action)
    requires DrainOk(s) && WaitersOk(s) && Enabled(s, a)
    ensures WaitersOk(Next(s, a))
  {
    var t := Next(s, a);
    forall u | u in t.threads && Waits(t.threads[u])
      ensures WillWake(t, t.threads[u].channel)
    {
      if Mover(a) == Some(u) {
        NewWaiter(s, a, u);
      } else {
        OthersUnmoved(s, a, u);
        StepKeepsWillWake(s, a, s.threads[u].channel);
      }
    }
  }

  /** Nobody waits for a drain in vain: in every reachable state the channel waited for is closed, or
      the drain that will close it is still in progress. */
  lemma {:induction false} WaitersAreWoken(run: seq<Action>)
    requires After(INIT, run).Some?
    ensures WaitersOk(After(INIT, run).value)
    decreases |run|
  {
    if run == [] {
    } else {
      var n := |run| - 1;
      WaitersAreWoken(run[..n]);
      RunKeepsInv(run[..n]);
      StepKeepsWaitersOk(After(INIT, run[..n]).value, run[n]);
    }
  }

  // ---- What the lock sections do ----

  /** Connecting, by a caller of `Connect` or by `Start`, waits for a drain in progress; otherwise the broker is
      connected afterwards if and only if it was or the call was accepted, and it loses no subscriber. */
  lemma ConnectConnects(s: State, a: Action, t: nat, accepted: bool)
    requires a == OfBroker(ConnectLocked(t, accepted)) || a == OfConsumer(StartConnects(t, accepted))
    requires Enabled(s, a)
    ensures var b := Next(s, a).broker;
      && b.draining == s.broker.draining && b.subscribers == s.broker.subscribers
      && (s.broker.draining.None? ==> (b.connected <==> s.broker.connected || accepted))
      && (s.broker.draining.Some? ==> b.connected == s.broker.connected && t in Next(s, a).threads
                                      && Waits(Next(s, a).threads[t])
                                      && Next(s, a).threads[t].channel == s.broker.draining.value)
    ensures a.OfConsumer? && s.broker.draining.None? ==>
              t in Next(s, a).threads
              && (Next(s, a).threads[t].Starting? <==> Next(s, a).broker.connected)
              && (!Next(s, a).threads[t].Starting? ==> Next(s, a).holder.None? && Next(s, a).threads[t].Free?)
  {
  }

  /** A subscription of the consumer is registered with the broker, as one of its entries, with a live loop. */
  lemma StartRegisters(s: State, t: nat, x: nat)
    requires Enabled(s, OfConsumer(StartSubscribes(t, x)))
    ensures var n := Next(s, OfConsumer(StartSubscribes(t, x)));
      && n.broker.subscribers == s.broker.subscribers + [x] && n.entries == s.entries + {x}
      && x in n.subs && n.subs[x] == Sub(0, false, false, Between, true)
  {
  }

  // ---- A whole drain ----

  /** A broker connects, a subscriber is registered, runs a handler and is drained by a second goroutine while a
      third waits for that drain. */
  const DRAIN: seq<Action> :=
    [OfBroker(NewThread(0)), OfBroker(CallConnect(0)), OfBroker(ConnectLocked(0, true)), OfSub(Subscribe(5)),
     OfSub(PassesCheck(5)), OfSub(HandlerEnters(5)), OfBroker(CallDisconnect(0)), OfBroker(DisconnectLocked(0, 7)),
     OfBroker(NewThread(1)), OfBroker(CallDisconnect(1)), OfBroker(DisconnectLocked(1, 8)), OfBroker(DrainStop(0)),
     OfBroker(DrainStop(0)), OfSub(HandlerLeaves(5)), OfSub(LoopEnds(5)), OfBroker(DrainJoin(0)),
     OfBroker(DrainFinish(0)), OfBroker(DisconnectWoken(1))]

  function SubAt(k: nat): Sub {
    Sub(if k >= 12 then 1 else 0, k >= 12, k >= 12,
        if k < 5 then Between else if k < 6 then Committed else if k < 14 then InHandler
        else if k < 15 then Between else Ended, false)
  }

  function DrainerAt(k: nat): Pc {
    if k == 2 then ConnectEnter else if k < 7 then Free else if k == 7 then DiscEnter({5})
    else if k < 12 then DiscStop(7, [5], 0, {5}) else if k == 12 then DiscStop(7, [5], 1, {5})
    else if k < 16 then DiscJoin(7, [5], 0, {5}) else if k == 16 then DiscJoin(7, [5], 1, {5})
    else DiscReturned({5})
  }

  function WaiterAt(k: nat): Pc {
    if k == 9 then Free else if k == 10 then DiscEnter({5}) else if k < 18 then DiscWait(7, {5}) else DiscReturned({5})
  }

  /** The state after `k` of these steps. */
  function DrainAt(k: nat): State {
    State(Broker(3 <= k < 8, if 8 <= k < 17 then Some(7) else None, if 4 <= k < 8 then [5] else []),
          if k < 8 then map[] else map[7 := if k < 17 then 0 else 1],
          if 8 <= k < 17 then Some(0) else None,
          if k < 4 then map[] else map[5 := SubAt(k)],
          if k == 0 then map[] else if k < 9 then map[0 := DrainerAt(k)] else map[0 := DrainerAt(k), 1 := WaiterAt(k)],
          0, false, {}, None)
  }

  predicate Leads(s: State, a: Action, t: State) {
    Enabled(s, a) && Next(s, a) == t
  }

  lemma DrainLeads(k: nat)
    requires k < 18
    ensures Leads(DrainAt(k), DRAIN[k], DrainAt(k + 1))
  {
    if k < 3 {
      BrokerConnects(k);
    } else if k < 6 {
      HandlerStarts(k);
    } else if k == 6 {
      FirstCalls();
    } else if k == 7 {
      LockTaken();
    } else if k == 8 {
      SecondArrives();
    } else if k == 9 {
      SecondCalls();
    } else if k == 10 {
      SecondWaits();
    } else if k < 14 {
      DrainLeadsStopping(k);
    } else if k < 16 {
      LoopJoined(k);
    } else {
      DrainLeadsLate(k);
    }
  }

  lemma BrokerConnects(k: nat)
    requires k < 3
    ensures Leads(DrainAt(k), DRAIN[k], DrainAt(k + 1))
  {
    var n, t := Next(DrainAt(k), DRAIN[k]), DrainAt(k + 1);
    assert n.closes == t.closes && n.subs == t.subs && n.threads == t.threads;
  }

  lemma HandlerStarts(k: nat)
    requires 3 <= k < 6
    ensures Leads(DrainAt(k), DRAIN[k], DrainAt(k + 1))
  {
    var n, t := Next(DrainAt(k), DRAIN[k]), DrainAt(k + 1);
    assert n.broker == t.broker && n.closes == t.closes && n.threads == t.threads;
    assert n.subs == t.subs;
  }

  lemma FirstCalls()
    ensures Leads(DrainAt(6), DRAIN[6], DrainAt(7))
  {
    var n, t := Next(DrainAt(6), DRAIN[6]), DrainAt(7);
    assert DrainAt(6).subs.Keys == {5};
    assert n.closes == t.closes && n.subs == t.subs && n.threads == t.threads;
  }

  lemma LockTaken()
    ensures Leads(DrainAt(7), DRAIN[7], DrainAt(8))
  {
    var n, t := Next(DrainAt(7), DRAIN[7]), DrainAt(8);
    assert DrainAt(7).subs.Keys == {5};
    assert n.closes == t.closes && n.subs == t.subs && n.threads == t.threads;
  }

  lemma SecondArrives()
    ensures Leads(DrainAt(8), DRAIN[8], DrainAt(9))
  {
    var n, t := Next(DrainAt(8), DRAIN[8]), DrainAt(9);
    assert DrainAt(8).subs.Keys == {5};
    assert n.closes == t.closes && n.subs == t.subs && n.threads == t.threads;
  }

  lemma SecondCalls()
    ensures Leads(DrainAt(9), DRAIN[9], DrainAt(10))
  {
    var n, t := Next(DrainAt(9), DRAIN[9]), DrainAt(10);
    assert DrainAt(9).subs.Keys == {5};
    assert n.closes == t.closes && n.subs == t.subs && n.threads == t.threads;
  }

  lemma SecondWaits()
    ensures Leads(DrainAt(10), DRAIN[10], DrainAt(11))
  {
    var n, t := Next(DrainAt(10), DRAIN[10]), DrainAt(11);
    assert DrainAt(10).subs.Keys == {5};
    assert n.closes == t.closes && n.subs == t.subs && n.threads == t.threads;
  }

  lemma DrainLeadsStopping(k: nat)
    requires 11 <= k < 14
    ensures Leads(DrainAt(k), DRAIN[k], DrainAt(k + 1))
  {
    var n, t := Next(DrainAt(k), DRAIN[k]), DrainAt(k + 1);
    assert DrainAt(k).subs.Keys == {5};
    assert n.broker == t.broker && n.closes == t.closes && n.drainer == t.drainer;
    assert n.subs == t.subs;
    assert n.threads == t.threads;
    assert n.inFlight == t.inFlight && n.started == t.started && n.entries == t.entries && n.holder == t.holder;
  }

  lemma LoopJoined(k: nat)
    requires 14 <= k < 16
    ensures Leads(DrainAt(k), DRAIN[k], DrainAt(k + 1))
  {
    var n, t := Next(DrainAt(k), DRAIN[k]), DrainAt(k + 1);
    assert DrainAt(k).subs.Keys == {5};
    assert n.broker == t.broker && n.closes == t.closes && n.drainer == t.drainer;
    assert n.subs == t.subs;
    assert n.threads == t.threads;
  }

  lemma DrainLeadsLate(k: nat)
    requires 16 <= k < 18
    ensures Leads(DrainAt(k), DRAIN[k], DrainAt(k + 1))
  {
    var n, t := Next(DrainAt(k), DRAIN[k]), DrainAt(k + 1);
    assert DrainAt(k).subs.Keys == {5};
    assert n.broker == t.broker && n.closes == t.closes && n.drainer == t.drainer;
    assert n.subs == t.subs;
    assert n.threads == t.threads;
    assert n.inFlight == t.inFlight && n.started == t.started && n.entries == t.entries && n.holder == t.holder;
  }

  lemma {:induction false} DrainReached(k: nat)
    requires k <= 18
    ensures After(INIT, DRAIN[..k]) == Some(DrainAt(k))
  {
    if k == 0 {
      assert DRAIN[..0] == [];
    } else {
      DrainReached(k - 1);
      DrainLeads(k - 1);
      assert DRAIN[..k][..k - 1] == DRAIN[..k - 1];
    }
  }

  /** Such a run exists: both calls of `Disconnect` return, the subscriber has ended, the broker is not connected
      and no longer draining. */
  lemma DrainHappens()
    ensures After(INIT, DRAIN).Some?
    ensures var s := After(INIT, DRAIN).value;
      && !s.broker.connected && s.broker.draining.None? && HasEnded(s, 5)
      && At(s, 0, DiscReturned({5})) && At(s, 1, DiscReturned({5})) && s.closes == map[7 := 1]
  {
    DrainReached(18);
    assert DRAIN[..18] == DRAIN;
  }
}
