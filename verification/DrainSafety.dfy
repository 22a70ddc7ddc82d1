/** What every run of the lifecycle keeps: draining, registration, and the consumer's graceful stop. */
module DrainSafety {
  import opened Prelude
  import opened Lifecycle

  // ---- The invariant, in four parts ----

  predicate Owns(pc: Pc) {
    pc.DiscStop? || pc.DiscJoin?
  }

  /** Subscribers that the current drain has captured. */
  function Captured(s: State): seq<nat> {
    if s.drainer.Some? && s.drainer.value in s.threads && Owns(s.threads[s.drainer.value])
    then s.threads[s.drainer.value].captured else []
  }

  /** A drain is in progress exactly while one goroutine owns it; meanwhile the broker is not
      connected and its channel is still open. Channels are closed at most once. */
  ghost predicate DrainOk(s: State) {
    && (s.broker.draining.Some? <==> s.drainer.Some?)
    && (s.drainer.Some? ==>
          && s.drainer.value in s.threads && Owns(s.threads[s.drainer.value])
          && s.threads[s.drainer.value].channel == s.broker.draining.value
          && s.broker.draining.value in s.closes && s.closes[s.broker.draining.value] == 0
          && !s.broker.connected)
    && (forall t | t in s.threads && Owns(s.threads[t]) :: s.drainer == Some(t))
    && (forall c | c in s.closes :: s.closes[c] <= 1)
    && (!s.broker.connected ==> s.broker.subscribers == [])
  }

  /** Every live loop is registered or captured; `exit` is closed exactly when `stopOnce` fired. */
  ghost predicate SubsOk(s: State) {
    && (forall x | x in s.subs && s.subs[x].loop != Ended :: x in s.broker.subscribers || x in Captured(s))
    && (forall x | x in s.broker.subscribers :: x in s.subs)
    && (forall x | x in Captured(s) :: x in s.subs)
    && (forall x | x in s.subs :: s.subs[x].exitCloses == (if s.subs[x].stopped then 1 else 0))
    && (forall x | x in s.subs && s.subs[x].stopped :: s.subs[x].cancelled)
  }

  /** `x` has ended, or the drain that uses `channel` is still waiting for it. */
  predicate EndedOrDraining(s: State, x: nat, channel: nat) {
    HasEnded(s, x) || (s.broker.draining == Some(channel) && x in Captured(s))
  }

  predicate WasStopped(s: State, x: nat) {
    x in s.subs && s.subs[x].stopped
  }

  /** What each goroutine knows where it stands. */
  ghost predicate ThreadOk(s: State, pc: Pc) {
    match pc
    case ConnectWait(c) => c in s.closes
    case StartWait(c) => c in s.closes
    case DiscEnter(before) => forall x | x in before :: x in s.subs
    case DiscWait(c, before) => c in s.closes && forall x | x in before :: EndedOrDraining(s, x, c)
    case DiscStop(c, captured, i, before) =>
      && i <= |captured|
      && (forall k | 0 <= k < i :: WasStopped(s, captured[k]))
      && (forall x | x in before :: EndedOrDraining(s, x, c))
    case DiscJoin(c, captured, i, before) =>
      && i <= |captured|
      && (forall k | 0 <= k < |captured| :: WasStopped(s, captured[k]))
      && (forall k | 0 <= k < i :: HasEnded(s, captured[k]))
      && (forall x | x in before :: EndedOrDraining(s, x, c))
    case DiscReturned(before) => forall x | x in before :: HasEnded(s, x)
    case UnsubStop(x) => x in s.subs
    case UnsubWait(x) => WasStopped(s, x)
    case UnsubReturned(x) => HasEnded(s, x)
    case StopUnsub(toStop, toJoin) =>
      && toStop <= toJoin
      && (forall x | x in toJoin :: x in s.subs)
      && (forall x | x in toJoin - toStop :: WasStopped(s, x))
    case _ => true
  }

  ghost predicate ThreadsOk(s: State) {
    forall t | t in s.threads :: ThreadOk(s, s.threads[t])
  }

  ghost predicate Inv(s: State) {
    DrainOk(s) && SubsOk(s) && ThreadsOk(s)
  }

  // ---- What only grows ----

  ghost predicate Grows(s: State, t: State) {
    && (forall x | x in s.subs :: x in t.subs)
    && (forall x | HasEnded(s, x) :: HasEnded(t, x))
    && (forall x | WasStopped(s, x) :: WasStopped(t, x))
    && (forall c | c in s.closes :: c in t.closes && s.closes[c] <= t.closes[c])
  }

  lemma BrokerGrows(s: State, a: BrokerAction)
    requires BrokerEnabled(s, a)
    ensures Grows(s, BrokerNext(s, a))
  {
  }

  lemma SubGrows(s: State, a: SubAction)
    requires SubEnabled(s, a)
    ensures Grows(s, SubNext(s, a))
  {
  }

  lemma ConsumerGrows(s: State, a: ConsumerAction)
    requires ConsumerEnabled(s, a)
    ensures Grows(s, ConsumerNext(s, a))
  {
  }

  lemma StepGrows(s: State, a: Action)
    requires Enabled(s, a)
    ensures Grows(s, Next(s, a))
  {
    match a
    case OfBroker(b) => BrokerGrows(s, b);
    case OfSub(u) => SubGrows(s, u);
    case OfConsumer(c) => ConsumerGrows(s, c);
  }

  // ---- The drain ----

  predicate IsDrainStep(a: BrokerAction) {
    a.DisconnectLocked? || a.DrainStop? || a.DrainJoin? || a.DrainFinish?
  }

  lemma DrainKeepsDrainOk(s: State, a: BrokerAction)
    requires DrainOk(s) && BrokerEnabled(s, a) && IsDrainStep(a)
    ensures DrainOk(BrokerNext(s, a))
  {
  }

  lemma OtherKeepsDrainOk(s: State, a: BrokerAction)
    requires DrainOk(s) && BrokerEnabled(s, a) && !IsDrainStep(a)
    ensures DrainOk(BrokerNext(s, a))
  {
    assert BrokerNext(s, a).broker.draining == s.broker.draining && BrokerNext(s, a).closes == s.closes;
  }

  lemma BrokerKeepsDrainOk(s: State, a: BrokerAction)
    requires DrainOk(s) && BrokerEnabled(s, a)
    ensures DrainOk(BrokerNext(s, a))
  {
    if IsDrainStep(a) {
      DrainKeepsDrainOk(s, a);
    } else {
      OtherKeepsDrainOk(s, a);
    }
  }

  lemma SubKeepsDrainOk(s: State, a: SubAction)
    requires DrainOk(s) && SubEnabled(s, a)
    ensures DrainOk(SubNext(s, a))
  {
  }

  lemma StartKeepsDrainOk(s: State, a: ConsumerAction)
    requires DrainOk(s) && ConsumerEnabled(s, a) && IsStart(a)
    ensures DrainOk(ConsumerNext(s, a))
  {
  }

  lemma StopKeepsDrainOk(s: State, a: ConsumerAction)
    requires DrainOk(s) && ConsumerEnabled(s, a) && !IsStart(a)
    ensures DrainOk(ConsumerNext(s, a))
  {
    assert ConsumerNext(s, a).broker == s.broker && ConsumerNext(s, a).closes == s.closes;
  }

  lemma ConsumerKeepsDrainOk(s: State, a: ConsumerAction)
    requires DrainOk(s) && ConsumerEnabled(s, a)
    ensures DrainOk(ConsumerNext(s, a))
  {
    if IsStart(a) {
      StartKeepsDrainOk(s, a);
    } else {
      StopKeepsDrainOk(s, a);
    }
  }

  lemma StepKeepsDrainOk(s: State, a: Action)
    requires DrainOk(s) && Enabled(s, a)
    ensures DrainOk(Next(s, a))
  {
    match a
    case OfBroker(b) => BrokerKeepsDrainOk(s, b);
    case OfSub(u) => SubKeepsDrainOk(s, u);
    case OfConsumer(c) => ConsumerKeepsDrainOk(s, c);
  }

  // ---- The subscribers ----

  lemma BrokerKeepsCaptured(s: State, a: BrokerAction)
    requires DrainOk(s) && BrokerEnabled(s, a) && !a.DisconnectLocked? && !a.DrainFinish?
    ensures Captured(BrokerNext(s, a)) == Captured(s)
  {
  }

  lemma SubKeepsCaptured(s: State, a: SubAction)
    requires DrainOk(s) && SubEnabled(s, a)
    ensures Captured(SubNext(s, a)) == Captured(s)
  {
  }

  lemma ConsumerKeepsCaptured(s: State, a: ConsumerAction)
    requires DrainOk(s) && ConsumerEnabled(s, a)
    ensures Captured(ConsumerNext(s, a)) == Captured(s)
  {
  }

  lemma StopKeepsSubsOk(s: State, x: nat)
    requires SubsOk(s)
    ensures SubsOk(Stop(s, x))
  {
    var t := Stop(s, x);
    assert Captured(t) == Captured(s);
  }

  /** `SubsOk` looks at nothing else. */
  lemma SubsOkOnly(s: State, t: State)
    requires SubsOk(s) && t.subs == s.subs && t.broker.subscribers == s.broker.subscribers && Captured(t) == Captured(s)
    ensures SubsOk(t)
  {
  }

  lemma RegisterKeepsSubsOk(s: State, x: nat, ofConsumer: bool)
    requires SubsOk(s) && x !in s.subs && s.broker.connected
    ensures SubsOk(Register(s, x, ofConsumer))
  {
    var t := Register(s, x, ofConsumer);
    assert Captured(t) == Captured(s);
  }

  lemma DrainKeepsSubsOk(s: State, a: BrokerAction)
    requires Inv(s) && BrokerEnabled(s, a) && (a.DisconnectLocked? || a.DrainFinish?)
    ensures SubsOk(BrokerNext(s, a))
  {
    var t := BrokerNext(s, a);
    assert t.subs == s.subs;
    if a.DrainFinish? {
      assert ThreadOk(s, s.threads[a.t]);
      assert Captured(s) == s.threads[a.t].captured;
      assert forall x | x in Captured(s) :: HasEnded(s, x);
      assert Captured(t) == [];
    } else if s.broker.connected {
      assert Captured(s) == [];
      assert Captured(t) == s.broker.subscribers;
    } else {
      assert Captured(t) == Captured(s);
    }
  }

  lemma BrokerKeepsSubsOk(s: State, a: BrokerAction)
    requires Inv(s) && BrokerEnabled(s, a)
    ensures SubsOk(BrokerNext(s, a))
  {
    if a.DisconnectLocked? || a.DrainFinish? {
      DrainKeepsSubsOk(s, a);
    } else {
      BrokerKeepsCaptured(s, a);
      if a.DrainStop? && s.threads[a.t].i < |s.threads[a.t].captured| {
        var x := s.threads[a.t].captured[s.threads[a.t].i];
        StopKeepsSubsOk(s, x);
        SubsOkOnly(Stop(s, x), BrokerNext(s, a));
      } else {
        SubsOkOnly(s, BrokerNext(s, a));
      }
    }
  }

  lemma SubKeepsSubsOk(s: State, a: SubAction)
    requires DrainOk(s) && SubsOk(s) && SubEnabled(s, a)
    ensures SubsOk(SubNext(s, a))
  {
    SubKeepsCaptured(s, a);
    match a
    case Subscribe(x) => RegisterKeepsSubsOk(s, x, false);
    case UnsubscribeStop(t) =>
      StopKeepsSubsOk(s, s.threads[t].x);
      SubsOkOnly(Stop(s, s.threads[t].x), SubNext(s, a));
    case _ => MovesKeepSubsOk(s, a);
  }

  lemma MovesKeepSubsOk(s: State, a: SubAction)
    requires SubsOk(s) && SubEnabled(s, a) && !a.Subscribe? && !a.UnsubscribeStop?
    requires Captured(SubNext(s, a)) == Captured(s)
    ensures SubsOk(SubNext(s, a))
  {
    var t := SubNext(s, a);
    assert t.broker == s.broker && t.subs.Keys == s.subs.Keys;
  }

  lemma ConsumerKeepsSubsOk(s: State, a: ConsumerAction)
    requires DrainOk(s) && SubsOk(s) && ConsumerEnabled(s, a)
    ensures SubsOk(ConsumerNext(s, a))
  {
    ConsumerKeepsCaptured(s, a);
    match a
    case StartSubscribes(_, x) =>
      RegisterKeepsSubsOk(s, x, true);
      SubsOkOnly(Register(s, x, true), ConsumerNext(s, a));
    case StopOne(_, x) =>
      StopKeepsSubsOk(s, x);
      SubsOkOnly(Stop(s, x), ConsumerNext(s, a));
    case _ => SubsOkOnly(s, ConsumerNext(s, a));
  }

  // ---- The goroutines ----

  /** A drain forgets nobody: while it lasts its captured subscribers stay, and when it finishes they
      have all ended. */
  lemma StepKeepsEndedOrDraining(s: State, a: Action, x: nat, c: nat)
    requires Inv(s) && Enabled(s, a) && EndedOrDraining(s, x, c)
    ensures EndedOrDraining(Next(s, a), x, c)
  {
    StepGrows(s, a);
    if !HasEnded(s, x) {
      match a
      case OfBroker(b) => BrokerKeepsDraining(s, b, x, c);
      case OfSub(u) => SubKeepsCaptured(s, u);
      case OfConsumer(k) => ConsumerKeepsCaptured(s, k);
    }
  }

  lemma BrokerKeepsDraining(s: State, a: BrokerAction, x: nat, c: nat)
    requires Inv(s) && BrokerEnabled(s, a) && s.broker.draining == Some(c) && x in Captured(s)
    ensures EndedOrDraining(BrokerNext(s, a), x, c)
  {
    if a.DrainFinish? {
      assert ThreadOk(s, s.threads[a.t]);
      assert Captured(s) == s.threads[a.t].captured;
      assert HasEnded(s, x);
    } else if !a.DisconnectLocked? {
      BrokerKeepsCaptured(s, a);
    }
  }

  lemma OthersKeepOk(s: State, a: Action, pc: Pc)
    requires Inv(s) && Enabled(s, a) && ThreadOk(s, pc)
    ensures ThreadOk(Next(s, a), pc)
  {
    StepGrows(s, a);
    forall x, c | EndedOrDraining(s, x, c)
      ensures EndedOrDraining(Next(s, a), x, c)
    {
      StepKeepsEndedOrDraining(s, a, x, c);
    }
    GrowsKeepsOk(s, Next(s, a), pc);
  }

  lemma GrowsKeepsOk(s: State, t: State, pc: Pc)
    requires ThreadOk(s, pc) && Grows(s, t)
    requires forall x, c | EndedOrDraining(s, x, c) :: EndedOrDraining(t, x, c)
    ensures ThreadOk(t, pc)
  {
  }

  /** The goroutine that an action belongs to. */
  function Mover(a: Action): Option<nat> {
    match a
    case OfBroker(b) => Some(b.t)
    case OfSub(u) => if u.CallUnsubscribe? || u.UnsubscribeStop? || u.UnsubscribeWoken? then Some(u.t) else None
    case OfConsumer(c) => Some(c.t)
  }

  lemma BrokerMovesOne(s: State, a: BrokerAction)
    requires BrokerEnabled(s, a)
    ensures a.t in BrokerNext(s, a).threads
    ensures BrokerNext(s, a).threads == s.threads[a.t := BrokerNext(s, a).threads[a.t]]
  {
  }

  lemma SubMovesOne(s: State, a: SubAction, u: nat)
    requires SubEnabled(s, a) && Mover(OfSub(a)) != Some(u)
    ensures u in s.threads <==> u in SubNext(s, a).threads
    ensures u in s.threads ==> SubNext(s, a).threads[u] == s.threads[u]
  {
  }

  lemma ConsumerMovesOne(s: State, a: ConsumerAction, u: nat)
    requires ConsumerEnabled(s, a) && a.t != u
    ensures u in s.threads <==> u in ConsumerNext(s, a).threads
    ensures u in s.threads ==> ConsumerNext(s, a).threads[u] == s.threads[u]
  {
  }

  lemma OthersUnmoved(s: State, a: Action, u: nat)
    requires Enabled(s, a) && Mover(a) != Some(u)
    ensures u in s.threads <==> u in Next(s, a).threads
    ensures u in s.threads ==> Next(s, a).threads[u] == s.threads[u]
  {
    match a
    case OfBroker(b) => BrokerMovesOne(s, b);
    case OfSub(w) => SubMovesOne(s, w, u);
    case OfConsumer(c) => ConsumerMovesOne(s, c, u);
  }

  lemma DisconnectMoverOk(s: State, a: BrokerAction)
    requires Inv(s) && BrokerEnabled(s, a) && a.DisconnectLocked?
    ensures a.t in BrokerNext(s, a).threads && ThreadOk(BrokerNext(s, a), BrokerNext(s, a).threads[a.t])
  {
    var t := BrokerNext(s, a);
    assert ThreadOk(s, s.threads[a.t]);
    if s.broker.connected {
      assert Captured(s) == [];
      assert Captured(t) == s.broker.subscribers;
    } else {
      assert Captured(t) == Captured(s);
    }
  }

  lemma BeforeStays(s: State, a: BrokerAction)
    requires Inv(s) && BrokerEnabled(s, a) && (a.DrainStop? || a.DrainJoin?)
    ensures forall x | x in s.threads[a.t].before :: EndedOrDraining(BrokerNext(s, a), x, s.threads[a.t].channel)
  {
    assert ThreadOk(s, s.threads[a.t]);
    forall x | x in s.threads[a.t].before
      ensures EndedOrDraining(BrokerNext(s, a), x, s.threads[a.t].channel)
    {
      StepKeepsEndedOrDraining(s, OfBroker(a), x, s.threads[a.t].channel);
    }
  }

  lemma DrainStopOk(s: State, t: nat)
    requires Inv(s) && BrokerEnabled(s, DrainStop(t))
    ensures var n := BrokerNext(s, DrainStop(t)); t in n.threads && ThreadOk(n, n.threads[t])
  {
    var pc := s.threads[t];
    assert ThreadOk(s, pc);
    BrokerGrows(s, DrainStop(t));
    BeforeStays(s, DrainStop(t));
    if pc.i < |pc.captured| {
      assert Captured(s) == pc.captured;
      assert pc.captured[pc.i] in Captured(s);
      assert WasStopped(BrokerNext(s, DrainStop(t)), pc.captured[pc.i]);
    }
  }

  lemma DrainJoinOk(s: State, t: nat)
    requires Inv(s) && BrokerEnabled(s, DrainJoin(t))
    ensures var n := BrokerNext(s, DrainJoin(t)); t in n.threads && ThreadOk(n, n.threads[t])
  {
    assert ThreadOk(s, s.threads[t]);
    BrokerGrows(s, DrainJoin(t));
    BeforeStays(s, DrainJoin(t));
  }

  lemma BrokerMoverOk(s: State, a: BrokerAction)
    requires Inv(s) && BrokerEnabled(s, a)
    ensures a.t in BrokerNext(s, a).threads && ThreadOk(BrokerNext(s, a), BrokerNext(s, a).threads[a.t])
  {
    if a.DisconnectLocked? {
      DisconnectMoverOk(s, a);
    } else if a.DrainStop? {
      DrainStopOk(s, a.t);
    } else if a.DrainJoin? {
      DrainJoinOk(s, a.t);
    } else {
      RestMoverOk(s, a);
    }
  }

  lemma RestMoverOk(s: State, a: BrokerAction)
    requires Inv(s) && BrokerEnabled(s, a) && !a.DisconnectLocked? && !a.DrainStop? && !a.DrainJoin?
    ensures a.t in BrokerNext(s, a).threads && ThreadOk(BrokerNext(s, a), BrokerNext(s, a).threads[a.t])
  {
    BrokerGrows(s, a);
    if !a.NewThread? {
      assert ThreadOk(s, s.threads[a.t]);
      if a.DrainFinish? {
        assert Captured(s) == s.threads[a.t].captured;
        assert forall x | x in Captured(s) :: HasEnded(s, x);
      }
    }
  }

  lemma SubMoverOk(s: State, a: SubAction)
    requires Inv(s) && SubEnabled(s, a) && Mover(OfSub(a)).Some?
    ensures a.t in SubNext(s, a).threads && ThreadOk(SubNext(s, a), SubNext(s, a).threads[a.t])
  {
    assert ThreadOk(s, s.threads[a.t]);
  }

  lemma StopOneOk(s: State, t: nat, x: nat)
    requires Inv(s) && ConsumerEnabled(s, StopOne(t, x))
    ensures var n := ConsumerNext(s, StopOne(t, x)); t in n.threads && ThreadOk(n, n.threads[t])
  {
    assert ThreadOk(s, s.threads[t]);
    ConsumerGrows(s, StopOne(t, x));
    var pc := s.threads[t];
    assert ConsumerNext(s, StopOne(t, x)).threads[t] == StopUnsub(pc.toStop - {x}, pc.toJoin);
    assert WasStopped(ConsumerNext(s, StopOne(t, x)), x);
  }

  lemma StopJoinsOk(s: State, t: nat, x: nat)
    requires Inv(s) && ConsumerEnabled(s, StopJoins(t, x))
    ensures var n := ConsumerNext(s, StopJoins(t, x)); t in n.threads && ThreadOk(n, n.threads[t])
  {
    assert ThreadOk(s, s.threads[t]);
    var pc := s.threads[t];
    assert ConsumerNext(s, StopJoins(t, x)).subs == s.subs;
    assert ConsumerNext(s, StopJoins(t, x)).threads[t] == StopUnsub(pc.toStop, pc.toJoin - {x});
    forall y | y in pc.toJoin - {x} - pc.toStop
      ensures WasStopped(s, y)
    {
      assert y in pc.toJoin - pc.toStop;
    }
  }

  predicate IsStart(a: ConsumerAction) {
    a.StartBegins? || a.StartConnects? || a.StartWoken? || a.StartSubscribes? || a.StartEnds?
  }

  lemma StartMoverOk(s: State, a: ConsumerAction)
    requires DrainOk(s) && ConsumerEnabled(s, a) && IsStart(a)
    ensures a.t in ConsumerNext(s, a).threads && ThreadOk(ConsumerNext(s, a), ConsumerNext(s, a).threads[a.t])
  {
    var pc := ConsumerNext(s, a).threads[a.t];
    if pc.StartWait? {
      assert s.broker.draining == Some(pc.channel);
    } else {
      assert pc.StartConnect? || pc.Starting? || pc.Free?;
    }
  }

  lemma StopOtherMoverOk(s: State, a: ConsumerAction)
    requires ConsumerEnabled(s, a) && !IsStart(a) && !a.StopOne? && !a.StopJoins?
    requires forall x | x in s.entries :: x in s.subs
    ensures a.t in ConsumerNext(s, a).threads && ThreadOk(ConsumerNext(s, a), ConsumerNext(s, a).threads[a.t])
  {
  }

  lemma ConsumerMoverOk(s: State, a: ConsumerAction)
    requires Inv(s) && ConsumerEnabled(s, a) && forall x | x in s.entries :: x in s.subs
    ensures a.t in ConsumerNext(s, a).threads && ThreadOk(ConsumerNext(s, a), ConsumerNext(s, a).threads[a.t])
  {
    if a.StopOne? {
      StopOneOk(s, a.t, a.x);
    } else if a.StopJoins? {
      StopJoinsOk(s, a.t, a.x);
    } else if IsStart(a) {
      StartMoverOk(s, a);
    } else {
      StopOtherMoverOk(s, a);
    }
  }

  lemma StepKeepsThreadsOk(s: State, a: Action)
    requires Inv(s) && Enabled(s, a) && forall x | x in s.entries :: x in s.subs
    ensures ThreadsOk(Next(s, a))
  {
    var t := Next(s, a);
    forall u | u in t.threads
      ensures ThreadOk(t, t.threads[u])
    {
      if Mover(a) == Some(u) {
        match a
        case OfBroker(b) => BrokerMoverOk(s, b);
        case OfSub(w) => SubMoverOk(s, w);
        case OfConsumer(c) => ConsumerMoverOk(s, c);
      } else {
        OthersUnmoved(s, a, u);
        OthersKeepOk(s, a, s.threads[u]);
      }
    }
  }

  lemma StepKeepsInv(s: State, a: Action)
    requires Inv(s) && Enabled(s, a) && forall x | x in s.entries :: x in s.subs
    ensures Inv(Next(s, a))
  {
    StepKeepsDrainOk(s, a);
    match a {
      case OfBroker(b) => BrokerKeepsSubsOk(s, b);
      case OfSub(u) => SubKeepsSubsOk(s, u);
      case OfConsumer(c) => ConsumerKeepsSubsOk(s, c);
    }
    StepKeepsThreadsOk(s, a);
  }
}
