/** The broker's read-write lock on top of the lifecycle (`broker/redis/redis.go`): acquiring and
    releasing it around every lock section, and `Publish`, which reads `connected` under it, by handlers
    and by anyone else. As in Go's `RWMutex`, a writer that waits keeps new readers out. */
module BrokerMutex {
  import opened Prelude
  import L = Lifecycle
  import DrainSafety
  import GracefulStop

  /** Who is inside a call of `Publish`: the handler that the loop of a subscriber runs, or another
      goroutine. */
  datatype Caller = Handler(x: nat) | Publisher(p: nat)

  /** Where a call of `Publish` is: waiting for the read lock, holding it, sending to the server, or
      about to return the error. */
  datatype CallPc = Asking | Reading | Sending | Refused

  /** `writer` holds the lock, `waiting` have called `Lock`; a caller that is `Reading` holds it for
      reading. */
  datatype State = State(life: L.State, writer: Option<nat>, waiting: set<nat>, calls: map<Caller, CallPc>)

  const INIT: State := State(L.INIT, None, {}, map[])

  datatype Action =
    | Announce(t: nat)
    | Acquire(t: nat)
    | Section(a: L.Action)
    | SubscribeSection(t: nat, x: nat)
    | GiveUp(t: nat)
    | Outside(a: L.Action)
    | CallPublish(c: Caller)
    | ReadLock(c: Caller)
    | Look(c: Caller)
    | PublishReturns(c: Caller)

  function Readers(s: State): set<Caller> {
    set c | c in s.calls && s.calls[c] == Reading
  }

  predicate CallIs(s: State, c: Caller, pc: CallPc) {
    c in s.calls && s.calls[c] == pc
  }

  /** A goroutine whose next step is a lock section: of `Connect`, one of the two of `Disconnect`, or of
      `Subscribe`. */
  predicate BeforeSection(pc: L.Pc) {
    match pc
    case Free => true
    case ConnectEnter => true
    case DiscEnter(_) => true
    case DiscJoin(_, captured, i, _) => i >= |captured|
    case StartConnect => true
    case Starting => true
    case _ => false
  }

  /** Lifecycle steps that are lock sections of the broker. */
  predicate IsSection(a: L.Action) {
    match a
    case OfBroker(b) => b.ConnectLocked? || b.DisconnectLocked? || b.DrainFinish?
    case OfSub(u) => u.Subscribe?
    case OfConsumer(c) => c.StartConnects? || c.StartSubscribes?
  }

  /** A goroutine that has called `Lock` does nothing else until it has released the lock. */
  predicate Committed(s: State, t: nat) {
    t in s.waiting || s.writer == Some(t)
  }

  /** A handler does not return while it is inside a call. */
  predicate HandlerFree(s: State, a: L.Action) {
    a.OfSub? && a.u.HandlerLeaves? ==> Handler(a.u.x) !in s.calls
  }

  predicate Enabled(s: State, a: Action) {
    match a
    case Announce(t) => t in s.life.threads && BeforeSection(s.life.threads[t]) && !Committed(s, t)
    case Acquire(t) => t in s.waiting && s.writer.None? && Readers(s) == {}
    case Section(a) =>
      && L.Enabled(s.life, a) && IsSection(a)
      && s.writer.Some? && DrainSafety.Mover(a) == s.writer
    case SubscribeSection(t, x) =>
      && s.writer == Some(t) && L.At(s.life, t, L.Free)
      && L.Enabled(s.life, L.OfSub(L.Subscribe(x)))
    case GiveUp(t) => s.writer == Some(t) && (L.At(s.life, t, L.Free) || L.At(s.life, t, L.Starting))
    case Outside(a) =>
      && L.Enabled(s.life, a) && !IsSection(a) && HandlerFree(s, a)
      && (DrainSafety.Mover(a).Some? ==> !Committed(s, DrainSafety.Mover(a).value))
    case CallPublish(c) =>
      c !in s.calls && (c.Handler? ==> c.x in s.life.subs && s.life.subs[c.x].loop == L.InHandler)
    case ReadLock(c) => CallIs(s, c, Asking) && s.writer.None? && s.waiting == {}
    case Look(c) => CallIs(s, c, Reading)
    case PublishReturns(c) => CallIs(s, c, Sending) || CallIs(s, c, Refused)
  }

  /** The lock is released at the end of a section. */
  function Next(s: State, a: Action): State
    requires Enabled(s, a)
  {
    match a
    case Announce(t) => s.(waiting := s.waiting + {t})
    case Acquire(t) => s.(writer := Some(t), waiting := s.waiting - {t})
    case Section(a) => s.(life := L.Next(s.life, a), writer := None)
    case SubscribeSection(_, x) => s.(life := L.Next(s.life, L.OfSub(L.Subscribe(x))), writer := None)
    case GiveUp(_) => s.(writer := None)
    case Outside(a) => s.(life := L.Next(s.life, a))
    case CallPublish(c) => s.(calls := s.calls[c := Asking])
    case ReadLock(c) => s.(calls := s.calls[c := Reading])
    case Look(c) => s.(calls := s.calls[c := if s.life.broker.connected then Sending else Refused])
    case PublishReturns(c) => s.(calls := s.calls - {c})
  }

  function After(s: State, run: seq<Action>): Option<State>
    decreases |run|
  {
    if run == [] then Some(s)
    else match After(s, run[..|run| - 1])
         case None => None
         case Some(mid) => if Enabled(mid, run[|run| - 1]) then Some(Next(mid, run[|run| - 1])) else None
  }

  // ---- Below the lock it is the lifecycle ----

  /** The lifecycle step that an action takes, if any. */
  function Below(a: Action): seq<L.Action> {
    match a
    case Section(a) => [a]
    case SubscribeSection(_, x) => [L.OfSub(L.Subscribe(x))]
    case Outside(a) => [a]
    case _ => []
  }

  function LifeRun(run: seq<Action>): seq<L.Action> {
    if run == [] then [] else LifeRun(run[..|run| - 1]) + Below(run[|run| - 1])
  }

  lemma LifeAppends(run: seq<L.Action>, s: L.State, a: L.Action)
    requires L.After(L.INIT, run) == Some(s) && L.Enabled(s, a)
    ensures L.After(L.INIT, run + [a]) == Some(L.Next(s, a))
  {
    assert (run + [a])[..|run|] == run;
  }

  lemma StepBelow(s: State, a: Action)
    requires Enabled(s, a)
    ensures if Below(a) == [] then Next(s, a).life == s.life
            else Below(a) == [Below(a)[0]] && L.Enabled(s.life, Below(a)[0])
                 && Next(s, a).life == L.Next(s.life, Below(a)[0])
  {
  }

  lemma LifeContinues(run: seq<L.Action>, s: State, a: Action)
    requires L.After(L.INIT, run) == Some(s.life) && Enabled(s, a)
    ensures L.After(L.INIT, run + Below(a)) == Some(Next(s, a).life)
  {
    StepBelow(s, a);
    if Below(a) == [] {
      assert run + Below(a) == run;
    } else {
      LifeAppends(run, s.life, Below(a)[0]);
    }
  }

  /** Every run with the lock is a run of the lifecycle, so that all that was proved there holds. */
  lemma {:induction false} RunsBelow(run: seq<Action>)
    requires After(INIT, run).Some?
    ensures L.After(L.INIT, LifeRun(run)) == Some(After(INIT, run).value.life)
    decreases |run|
  {
    if run == [] {
    } else {
      var n := |run| - 1;
      RunsBelow(run[..n]);
      LifeContinues(LifeRun(run[..n]), After(INIT, run[..n]).value, run[n]);
    }
  }

  // ---- The invariant of the lock ----

  predicate AtSection(s: State, t: nat) {
    t in s.life.threads && BeforeSection(s.life.threads[t])
  }

  /** One writer and no readers, or readers only; whoever holds or awaits the lock for writing is at a
      section, and a handler that publishes is inside its loop's handler call. */
  ghost predicate Inv(s: State) {
    && (s.writer.Some? ==> Readers(s) == {} && s.writer.value !in s.waiting && AtSection(s, s.writer.value))
    && (forall t | t in s.waiting :: AtSection(s, t))
    && (forall x | Handler(x) in s.calls :: x in s.life.subs && s.life.subs[x].loop == L.InHandler)
  }

  /** A lifecycle step leaves other goroutines and, unless it is the handler's end, the running handlers
      where they are. */
  lemma LifeLeaves(s: L.State, a: L.Action)
    requires L.Enabled(s, a)
    ensures forall t | t in s.threads && DrainSafety.Mover(a) != Some(t) ::
              t in L.Next(s, a).threads && L.Next(s, a).threads[t] == s.threads[t]
    ensures forall x | x in s.subs && s.subs[x].loop == L.InHandler && a != L.OfSub(L.HandlerLeaves(x)) ::
              x in L.Next(s, a).subs && L.Next(s, a).subs[x].loop == L.InHandler
  {
    forall t | t in s.threads && DrainSafety.Mover(a) != Some(t)
      ensures t in L.Next(s, a).threads && L.Next(s, a).threads[t] == s.threads[t]
    {
      DrainSafety.OthersUnmoved(s, a, t);
    }
    forall x | x in s.subs && s.subs[x].loop == L.InHandler && a != L.OfSub(L.HandlerLeaves(x))
      ensures x in L.Next(s, a).subs && L.Next(s, a).subs[x].loop == L.InHandler
    {
      match a
      case OfBroker(b) => BrokerLeavesHandlers(s, b);
      case OfSub(u) => SubLeavesHandler(s, u, x);
      case OfConsumer(c) => ConsumerLeavesHandlers(s, c);
    }
  }

  lemma BrokerLeavesHandlers(s: L.State, a: L.BrokerAction)
    requires L.BrokerEnabled(s, a)
    ensures forall x | x in s.subs :: x in L.BrokerNext(s, a).subs && L.BrokerNext(s, a).subs[x].loop == s.subs[x].loop
  {
  }

  lemma SubLeavesHandler(s: L.State, a: L.SubAction, x: nat)
    requires L.SubEnabled(s, a) && x in s.subs && s.subs[x].loop == L.InHandler && a != L.HandlerLeaves(x)
    ensures x in L.SubNext(s, a).subs && L.SubNext(s, a).subs[x].loop == L.InHandler
  {
  }

  lemma ConsumerLeavesHandlers(s: L.State, a: L.ConsumerAction)
    requires L.ConsumerEnabled(s, a)
    ensures forall x | x in s.subs ::
              x in L.ConsumerNext(s, a).subs && L.ConsumerNext(s, a).subs[x].loop == s.subs[x].loop
  {
  }

  lemma LifeStepKeepsInv(s: State, a: Action, b: L.Action)
    requires Inv(s) && Enabled(s, a) && Below(a) == [b]
    ensures Inv(Next(s, a))
  {
    LifeLeaves(s.life, b);
    var t := Next(s, a);
    assert t.calls == s.calls && t.waiting == s.waiting && Readers(t) == Readers(s);
    forall u | u in t.waiting
      ensures AtSection(t, u)
    {
      assert AtSection(s, u);
    }
  }

  lemma LockStepKeepsInv(s: State, a: Action)
    requires Inv(s) && Enabled(s, a) && Below(a) == []
    ensures Inv(Next(s, a))
  {
    var t := Next(s, a);
    assert t.life == s.life;
    if a.CallPublish? || a.PublishReturns? || a.Look? {
      assert Readers(t) <= Readers(s);
    } else if !a.ReadLock? {
      assert Readers(t) == Readers(s);
    }
  }

  lemma StepKeepsInv(s: State, a: Action)
    requires Inv(s) && Enabled(s, a)
    ensures Inv(Next(s, a))
  {
    if Below(a) == [] {
      LockStepKeepsInv(s, a);
    } else {
      LifeStepKeepsInv(s, a, Below(a)[0]);
    }
  }

  lemma {:induction false} RunKeepsInv(run: seq<Action>)
    requires After(INIT, run).Some?
    ensures Inv(After(INIT, run).value)
    decreases |run|
  {
    if run == [] {
    } else {
      var n := |run| - 1;
      RunKeepsInv(run[..n]);
      StepKeepsInv(After(INIT, run[..n]).value, run[n]);
    }
  }
}
