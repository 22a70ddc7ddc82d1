/** A drain comes to its end: it never keeps the broker's lock from a handler that publishes, some step
    towards its end is always possible, and the loops it waits for take a bounded number of steps. */
module DrainProgress {
  import opened Prelude
  import L = Lifecycle
  import DrainSafety
  import GracefulStop
  import opened BrokerMutex

  // ---- The lock ----

  /** A goroutine of `Disconnect` that stops the captured subscribers or waits for one of them. */
  predicate MidDrain(pc: L.Pc) {
    pc.DiscStop? || (pc.DiscJoin? && pc.i < |pc.captured|)
  }

  /** A drain neither holds nor awaits the lock while it waits for handlers. */
  lemma DrainHoldsNoLock(run: seq<Action>, s: State, t: nat)
    requires After(INIT, run) == Some(s) && t in s.life.threads && MidDrain(s.life.threads[t])
    ensures s.writer != Some(t) && t !in s.waiting
  {
    RunKeepsInv(run);
    assert !AtSection(s, t);
  }

  predicate IsLockStep(a: Action) {
    a.Acquire? || a.Section? || a.SubscribeSection? || a.GiveUp? || a.Look?
  }

  /** What stands between a caller and the read lock. */
  function Blockers(s: State): nat {
    2 * |s.waiting| + (if s.writer.Some? then 1 else 0) + |Readers(s)|
  }

  lemma LockStepLowers(s: State, a: Action)
    requires Enabled(s, a) && IsLockStep(a)
    ensures Blockers(Next(s, a)) < Blockers(s)
  {
    var t := Next(s, a);
    if a.Look? {
      assert Readers(t) == Readers(s) - {a.c};
    } else {
      assert Readers(t) == Readers(s);
    }
  }

  lemma OthersDoNotRaise(s: State, a: Action)
    requires Enabled(s, a) && !IsLockStep(a) && !a.Announce? && !a.ReadLock?
    ensures Blockers(Next(s, a)) == Blockers(s)
  {
    assert Readers(Next(s, a)) == Readers(s);
  }

  function LockSteps(run: seq<Action>): nat {
    if run == [] then 0 else LockSteps(run[..|run| - 1]) + (if IsLockStep(run[|run| - 1]) then 1 else 0)
  }

  predicate NoNewcomers(run: seq<Action>) {
    forall k | 0 <= k < |run| :: !run[k].Announce? && !run[k].ReadLock?
  }

  /** While nobody new comes, holders and waiting writers are done with the lock after at most
      `Blockers` steps. */
  lemma {:induction false} LockIsFreed(s: State, run: seq<Action>)
    requires After(s, run).Some? && NoNewcomers(run)
    ensures LockSteps(run) + Blockers(After(s, run).value) <= Blockers(s)
    decreases |run|
  {
    if run == [] {
    } else {
      var n := |run| - 1;
      assert forall k | 0 <= k < n :: run[..n][k] == run[k];
      LockIsFreed(s, run[..n]);
      var mid := After(s, run[..n]).value;
      if IsLockStep(run[n]) {
        LockStepLowers(mid, run[n]);
      } else {
        OthersDoNotRaise(mid, run[n]);
      }
    }
  }

  /** The goroutine at the lock that takes the step, for writers. */
  function Writer(s: State, a: Action): Option<nat> {
    match a
    case Acquire(t) => Some(t)
    case Section(_) => s.writer
    case SubscribeSection(t, _) => Some(t)
    case GiveUp(t) => Some(t)
    case _ => None
  }

  /** A step with which somebody who is not in the middle of a drain brings the lock nearer to being
      free. */
  predicate Frees(s: State, a: Action) {
    && Enabled(s, a) && IsLockStep(a) && Blockers(Next(s, a)) < Blockers(s)
    && match Writer(s, a)
       case Some(t) => t in s.life.threads && !MidDrain(s.life.threads[t])
       case None => true
  }

  lemma {:induction false} FreshFor(used: set<nat>) returns (unused: nat)
    ensures forall x | x in used :: x < unused
  {
    if used == {} {
      unused := 0;
    } else {
      var x :| x in used;
      var below := FreshFor(used - {x});
      unused := Max(below, x + 1);
      assert forall y | y in used :: y == x || y in used - {x};
    }
  }

  /** How the holder can go on: its section, or a `Subscribe` that is refused. */
  function SectionOf(pc: L.Pc, t: nat, channel: nat): Action {
    match pc
    case ConnectEnter => Section(L.OfBroker(L.ConnectLocked(t, false)))
    case DiscEnter(_) => Section(L.OfBroker(L.DisconnectLocked(t, channel)))
    case DiscJoin(_, _, _, _) => Section(L.OfBroker(L.DrainFinish(t)))
    case StartConnect => Section(L.OfConsumer(L.StartConnects(t, false)))
    case _ => GiveUp(t)
  }

  /** Whoever holds the lock for writing can go on to release it. */
  lemma HolderMoves(s: State, t: nat) returns (a: Action)
    requires Inv(s) && s.writer == Some(t)
    ensures Frees(s, a)
  {
    assert AtSection(s, t);
    var channel := FreshFor(s.life.closes.Keys);
    a := SectionOf(s.life.threads[t], t, channel);
    SectionEnabled(s, t, channel);
    LockStepLowers(s, a);
  }

  lemma SectionEnabled(s: State, t: nat, channel: nat)
    requires s.writer == Some(t) && AtSection(s, t) && channel !in s.life.closes
    ensures var a := SectionOf(s.life.threads[t], t, channel); Enabled(s, a) && IsLockStep(a)
  {
  }

  lemma LockMoves(s: State) returns (a: Action)
    requires Inv(s) && (s.writer.Some? || s.waiting != {} || Readers(s) != {})
    ensures Frees(s, a)
  {
    if s.writer.Some? {
      a := HolderMoves(s, s.writer.value);
    } else if Readers(s) != {} {
      var c :| c in Readers(s);
      a := Look(c);
      LockStepLowers(s, a);
    } else {
      var t :| t in s.waiting;
      assert AtSection(s, t);
      a := Acquire(t);
      LockStepLowers(s, a);
    }
  }

  /** Main result. A call of `Publish`, by a handler or anyone else, is never blocked by a drain: it can
      take the read lock, or somebody else than a goroutine in the middle of a drain can bring it nearer
      to that. */
  lemma PublishIsNotBlockedByDrain(run: seq<Action>, s: State, c: Caller)
    requires After(INIT, run) == Some(s) && CallIs(s, c, Asking)
    ensures Blockers(s) == 0 ==> Enabled(s, ReadLock(c))
    ensures Enabled(s, ReadLock(c)) || exists a :: Frees(s, a)
  {
    RunKeepsInv(run);
    if !Enabled(s, ReadLock(c)) {
      var a := LockMoves(s);
    }
  }

  /** Main result. A `Publish` that looks at the broker between the two lock sections of a `Disconnect` is
      refused. */
  lemma DrainingRefuses(run: seq<Action>, s: State, c: Caller)
    requires After(INIT, run) == Some(s) && CallIs(s, c, Reading) && s.life.broker.draining.Some?
    ensures Enabled(s, Look(c)) && CallIs(Next(s, Look(c)), c, Refused)
  {
    RunsBelow(run);
    GracefulStop.DrainExcludes(LifeRun(run), s.life);
  }

  // ---- The drain ----

  /** A loop that the drain of `captured` has told to stop. */
  predicate Awaited(s: State, captured: seq<nat>, x: nat) {
    x in captured && DrainSafety.WasStopped(s.life, x)
  }

  /** An enabled step that brings the drain of goroutine `t` nearer to its end: its own next step, one of a
      loop that has been told to stop, one of a publishing handler of such a loop, or one that frees the
      lock for either. */
  predicate Helps(s: State, t: nat, a: Action)
    requires t in s.life.threads && DrainSafety.Owns(s.life.threads[t])
  {
    var captured := s.life.threads[t].captured;
    && Enabled(s, a)
    && match a
       case Outside(OfBroker(DrainStop(u))) => u == t
       case Outside(OfBroker(DrainJoin(u))) => u == t
       case Announce(u) => u == t
       case Outside(OfSub(HandlerEnters(x))) => Awaited(s, captured, x)
       case Outside(OfSub(HandlerLeaves(x))) => Awaited(s, captured, x)
       case Outside(OfSub(LoopEnds(x))) => Awaited(s, captured, x)
       case ReadLock(Handler(x)) => Awaited(s, captured, x)
       case PublishReturns(Handler(x)) => Awaited(s, captured, x)
       case _ => Frees(s, a)
  }

  /** A handler inside a call of `Publish` can go on, or the lock can be freed for it. */
  lemma CallMoves(s: State, t: nat, x: nat) returns (a: Action)
    requires Inv(s) && t in s.life.threads && DrainSafety.Owns(s.life.threads[t]) && Handler(x) in s.calls
    requires Awaited(s, s.life.threads[t].captured, x)
    ensures Helps(s, t, a)
  {
    var c := Handler(x);
    match s.calls[c]
    case Asking =>
      if Enabled(s, ReadLock(c)) {
        a := ReadLock(c);
      } else {
        a := LockMoves(s);
        assert !a.ReadLock? && !a.PublishReturns? && !a.Announce? && !a.Outside?;
      }
    case Reading =>
      a := Look(c);
      LockStepLowers(s, a);
    case _ => a := PublishReturns(c);
  }

  lemma LoopMoves(s: State, t: nat, x: nat) returns (a: Action)
    requires Inv(s) && DrainSafety.SubsOk(s.life)
    requires t in s.life.threads && DrainSafety.Owns(s.life.threads[t])
    requires Awaited(s, s.life.threads[t].captured, x) && !L.HasEnded(s.life, x)
    ensures Helps(s, t, a)
  {
    match s.life.subs[x].loop
    case Between => a := Outside(L.OfSub(L.LoopEnds(x)));
    case Committed => a := Outside(L.OfSub(L.HandlerEnters(x)));
    case InHandler =>
      if Handler(x) in s.calls {
        a := CallMoves(s, t, x);
      } else {
        a := Outside(L.OfSub(L.HandlerLeaves(x)));
      }
  }

  lemma FinishMoves(s: State, t: nat) returns (a: Action)
    requires Inv(s) && t in s.life.threads && s.life.threads[t].DiscJoin?
    requires s.life.threads[t].i >= |s.life.threads[t].captured|
    ensures Helps(s, t, a)
  {
    if !Committed(s, t) {
      a := Announce(t);
    } else {
      a := LockMoves(s);
      assert !a.ReadLock? && !a.PublishReturns? && !a.Announce? && !a.Outside?;
    }
  }

  /** Main result. In every reachable state, with handlers publishing through the same broker, a drain is
      not stuck: some step that brings it nearer to its end is enabled. */
  lemma DrainIsNeverStuck(run: seq<Action>, s: State, t: nat)
    requires After(INIT, run) == Some(s) && t in s.life.threads && DrainSafety.Owns(s.life.threads[t])
    ensures exists a :: Helps(s, t, a)
  {
    RunKeepsInv(run);
    RunsBelow(run);
    GracefulStop.RunKeepsInv(LifeRun(run));
    if MidDrain(s.life.threads[t]) {
      DrainHoldsNoLock(run, s, t);
      var a := MidDrainMoves(s, t);
    } else {
      var a := FinishMoves(s, t);
    }
  }

  lemma MidDrainMoves(s: State, t: nat) returns (a: Action)
    requires Inv(s) && DrainSafety.SubsOk(s.life) && t in s.life.threads && MidDrain(s.life.threads[t])
    requires DrainSafety.ThreadOk(s.life, s.life.threads[t]) && !Committed(s, t)
    ensures Helps(s, t, a)
  {
    var pc := s.life.threads[t];
    if pc.DiscStop? {
      a := Outside(L.OfBroker(L.DrainStop(t)));
    } else if L.HasEnded(s.life, pc.captured[pc.i]) {
      a := Outside(L.OfBroker(L.DrainJoin(t)));
    } else {
      a := LoopMoves(s, t, pc.captured[pc.i]);
    }
  }

  // ---- How long a drain can take ----

  /** The steps a stopped loop can still take. */
  function Weight(s: L.State, x: nat): nat {
    if x !in s.subs then 0
    else match s.subs[x].loop
         case Committed => 3
         case InHandler => 2
         case Between => 1
         case Ended => 0
  }

  function Work(s: L.State, captured: seq<nat>): nat {
    if captured == [] then 0 else Work(s, captured[..|captured| - 1]) + Weight(s, captured[|captured| - 1])
  }

  predicate IsLoopStep(a: L.Action, captured: seq<nat>) {
    a.OfSub? && (a.u.PassesCheck? || a.u.HandlerEnters? || a.u.HandlerLeaves? || a.u.LoopEnds?) && a.u.x in captured
  }

  function LoopSteps(run: seq<L.Action>, captured: seq<nat>): nat {
    if run == [] then 0
    else LoopSteps(run[..|run| - 1], captured) + (if IsLoopStep(run[|run| - 1], captured) then 1 else 0)
  }

  /** Every captured loop has been told to stop, so its context is cancelled. */
  predicate AllStopped(s: L.State, captured: seq<nat>) {
    forall k | 0 <= k < |captured| ::
      DrainSafety.WasStopped(s, captured[k]) && s.subs[captured[k]].cancelled
  }

  predicate NoHeavier(s: L.State, t: L.State, captured: seq<nat>) {
    forall k | 0 <= k < |captured| :: Weight(t, captured[k]) <= Weight(s, captured[k])
  }

  lemma {:induction false} WorkShrinks(s: L.State, t: L.State, captured: seq<nat>)
    requires NoHeavier(s, t, captured)
    ensures Work(t, captured) <= Work(s, captured)
    ensures (exists k :: 0 <= k < |captured| && Weight(t, captured[k]) < Weight(s, captured[k])) ==>
              Work(t, captured) < Work(s, captured)
    decreases |captured|
  {
    if captured == [] {
    } else {
      var n := |captured| - 1;
      var rest := captured[..n];
      assert forall k | 0 <= k < n :: rest[k] == captured[k];
      WorkShrinks(s, t, rest);
      if k :| 0 <= k < n && Weight(t, captured[k]) < Weight(s, captured[k]) {
        assert Weight(t, rest[k]) < Weight(s, rest[k]);
      }
    }
  }

  lemma {:induction false} WorkIsBounded(s: L.State, captured: seq<nat>)
    ensures Work(s, captured) <= 3 * |captured|
    decreases |captured|
  {
    if captured == [] {
    } else {
      WorkIsBounded(s, captured[..|captured| - 1]);
    }
  }

  /** No work left means that every captured loop has ended. */
  lemma {:induction false} NoWorkMeansEnded(s: L.State, captured: seq<nat>, k: nat)
    requires AllStopped(s, captured) && Work(s, captured) == 0 && k < |captured|
    ensures L.HasEnded(s, captured[k])
    decreases |captured|
  {
    var n := |captured| - 1;
    if k < n {
      assert forall j | 0 <= j < n :: captured[..n][j] == captured[j];
      NoWorkMeansEnded(s, captured[..n], k);
    }
  }

  lemma SubStepLowers(s: L.State, a: L.SubAction, captured: seq<nat>)
    requires AllStopped(s, captured) && L.SubEnabled(s, a)
    ensures NoHeavier(s, L.SubNext(s, a), captured)
    ensures IsLoopStep(L.OfSub(a), captured) ==>
              exists k :: 0 <= k < |captured| && Weight(L.SubNext(s, a), captured[k]) < Weight(s, captured[k])
  {
    var t := L.SubNext(s, a);
    if IsLoopStep(L.OfSub(a), captured) {
      var k :| 0 <= k < |captured| && captured[k] == a.x;
      assert Weight(t, captured[k]) < Weight(s, captured[k]);
    }
  }

  lemma StopsStay(s: L.State, a: L.Action, captured: seq<nat>)
    requires AllStopped(s, captured) && L.Enabled(s, a)
    ensures AllStopped(L.Next(s, a), captured)
  {
    DrainSafety.StepGrows(s, a);
    CancelsStay(s, a);
  }

  lemma CancelsStay(s: L.State, a: L.Action)
    requires L.Enabled(s, a)
    ensures forall x | x in s.subs && s.subs[x].cancelled :: x in L.Next(s, a).subs && L.Next(s, a).subs[x].cancelled
  {
    match a
    case OfBroker(b) => assert forall x | x in s.subs :: x in L.BrokerNext(s, b).subs;
    case OfSub(u) => assert forall x | x in s.subs :: x in L.SubNext(s, u).subs;
    case OfConsumer(c) => assert forall x | x in s.subs :: x in L.ConsumerNext(s, c).subs;
  }

  lemma StepLowersWork(s: L.State, a: L.Action, captured: seq<nat>)
    requires AllStopped(s, captured) && L.Enabled(s, a)
    ensures Work(L.Next(s, a), captured) + (if IsLoopStep(a, captured) then 1 else 0) <= Work(s, captured)
  {
    match a
    case OfBroker(b) =>
      BrokerLeavesHandlers(s, b);
      WorkShrinks(s, L.BrokerNext(s, b), captured);
    case OfSub(u) =>
      SubStepLowers(s, u, captured);
      WorkShrinks(s, L.SubNext(s, u), captured);
    case OfConsumer(c) =>
      ConsumerLeavesHandlers(s, c);
      WorkShrinks(s, L.ConsumerNext(s, c), captured);
  }

  lemma {:induction false} WorkIsUsedUp(s: L.State, run: seq<L.Action>, captured: seq<nat>)
    requires AllStopped(s, captured) && L.After(s, run).Some?
    ensures AllStopped(L.After(s, run).value, captured)
    ensures LoopSteps(run, captured) + Work(L.After(s, run).value, captured) <= Work(s, captured)
    decreases |run|
  {
    if run == [] {
    } else {
      var n := |run| - 1;
      var mid := L.After(s, run[..n]).value;
      WorkIsUsedUp(s, run[..n], captured);
      StopsStay(mid, run[n], captured);
      StepLowersWork(mid, run[n], captured);
    }
  }

  /** Main result. Once a drain has stopped its captured subscribers, their loops take at most three more
      steps each, whatever everybody else does: the handler call each may be committed to, its return, and
      the end. After that many all of them have ended, and nothing but the second lock section is left. */
  lemma DrainIsBounded(run: seq<L.Action>, s: L.State, t: nat, more: seq<L.Action>, u: L.State)
    requires L.After(L.INIT, run) == Some(s) && t in s.threads && s.threads[t].DiscJoin?
    requires L.After(s, more) == Some(u)
    ensures var captured := s.threads[t].captured;
      && LoopSteps(more, captured) <= 3 * |captured|
      && (LoopSteps(more, captured) >= Work(s, captured) ==>
            forall k | 0 <= k < |captured| :: L.HasEnded(u, captured[k]))
  {
    var captured := s.threads[t].captured;
    GracefulStop.RunKeepsInv(run);
    assert DrainSafety.ThreadOk(s, s.threads[t]);
    WorkIsBounded(s, captured);
    WorkIsUsedUp(s, more, captured);
    if LoopSteps(more, captured) >= Work(s, captured) {
      forall k | 0 <= k < |captured|
        ensures L.HasEnded(u, captured[k])
      {
        NoWorkMeansEnded(u, captured, k);
      }
    }
  }

  // ---- The drain and the publishing handlers together ----

  /** A step of goroutine `t`. */
  predicate OwnStep(a: Action, t: nat) {
    match a
    case Announce(u) => u == t
    case Acquire(u) => u == t
    case GiveUp(u) => u == t
    case SubscribeSection(u, _) => u == t
    case Section(b) => DrainSafety.Mover(b) == Some(t)
    case Outside(b) => DrainSafety.Mover(b) == Some(t)
    case _ => false
  }

  /** A step of the loop of subscriber `x`, or of its handler inside a call of `Publish`. */
  predicate StepOf(a: Action, x: nat) {
    match a
    case Outside(OfSub(PassesCheck(y))) => y == x
    case Outside(OfSub(HandlerEnters(y))) => y == x
    case Outside(OfSub(HandlerLeaves(y))) => y == x
    case Outside(OfSub(LoopEnds(y))) => y == x
    case CallPublish(c) => c == Handler(x)
    case ReadLock(c) => c == Handler(x)
    case Look(c) => c == Handler(x)
    case PublishReturns(c) => c == Handler(x)
    case _ => false
  }

  function OwnSteps(run: seq<Action>, t: nat): nat {
    if run == [] then 0 else OwnSteps(run[..|run| - 1], t) + (if OwnStep(run[|run| - 1], t) then 1 else 0)
  }

  function StepsOf(run: seq<Action>, x: nat): nat {
    if run == [] then 0 else StepsOf(run[..|run| - 1], x) + (if StepOf(run[|run| - 1], x) then 1 else 0)
  }

  function CallsOf(run: seq<Action>, x: nat): nat {
    if run == [] then 0
    else CallsOf(run[..|run| - 1], x) + (if run[|run| - 1] == CallPublish(Handler(x)) then 1 else 0)
  }

  /** The steps that a goroutine waiting for its captured loops has left: one for each loop, and the three of
      its second lock section. */
  function OwnLeft(s: State, t: nat): nat {
    if t in s.life.threads && s.life.threads[t].DiscJoin? then
      Max(0, |s.life.threads[t].captured| - s.life.threads[t].i)
      + (if s.writer == Some(t) then 1 else if t in s.waiting then 2 else 3)
    else 0
  }

  /** Goroutine `t` waits for its captured loops, or is done. */
  predicate Joins(s: State, t: nat) {
    t in s.life.threads && (s.life.threads[t].DiscJoin? || s.life.threads[t].DiscReturned?)
  }

  lemma BrokerJoinStep(s: L.State, a: L.BrokerAction)
    requires L.BrokerEnabled(s, a) && a.t in s.threads && (s.threads[a.t].DiscJoin? || s.threads[a.t].DiscReturned?)
    ensures s.threads[a.t].DiscJoin? && (a.DrainJoin? || a.DrainFinish?)
    ensures a.t in L.BrokerNext(s, a).threads
    ensures var pc, next := s.threads[a.t], L.BrokerNext(s, a).threads[a.t];
      if a.DrainJoin? then pc.i < |pc.captured| && next == pc.(i := pc.i + 1)
      else pc.i >= |pc.captured| && next.DiscReturned?
  {
  }

  lemma JoinMoverIsBroker(s: L.State, a: L.Action, t: nat)
    requires L.Enabled(s, a) && DrainSafety.Mover(a) == Some(t)
    requires t in s.threads && (s.threads[t].DiscJoin? || s.threads[t].DiscReturned?)
    ensures a.OfBroker? && a.b.t == t
  {
  }

  lemma OwnStepLowers(s: State, a: Action, t: nat)
    requires Inv(s) && Enabled(s, a) && Joins(s, t) && OwnStep(a, t)
    ensures Joins(Next(s, a), t) && OwnLeft(Next(s, a), t) + 1 == OwnLeft(s, t)
  {
    match a
    case Section(b) =>
      JoinMoverIsBroker(s.life, b, t);
      BrokerJoinStep(s.life, b.b);
    case Outside(b) =>
      JoinMoverIsBroker(s.life, b, t);
      BrokerJoinStep(s.life, b.b);
    case _ =>
  }

  lemma OthersLeaveJoin(s: State, a: Action, t: nat)
    requires Inv(s) && Enabled(s, a) && Joins(s, t) && !OwnStep(a, t)
    ensures Joins(Next(s, a), t) && OwnLeft(Next(s, a), t) == OwnLeft(s, t)
  {
    match a
    case Section(b) => DrainSafety.OthersUnmoved(s.life, b, t);
    case SubscribeSection(u, x) => DrainSafety.OthersUnmoved(s.life, L.OfSub(L.Subscribe(x)), t);
    case Outside(b) => DrainSafety.OthersUnmoved(s.life, b, t);
    case _ =>
  }

  lemma {:induction false} OwnIsUsedUp(s: State, run: seq<Action>, t: nat)
    requires Inv(s) && Joins(s, t) && After(s, run).Some?
    ensures Inv(After(s, run).value) && Joins(After(s, run).value, t)
    ensures OwnSteps(run, t) + OwnLeft(After(s, run).value, t) == OwnLeft(s, t)
    decreases |run|
  {
    if run == [] {
    } else {
      var n := |run| - 1;
      var mid := After(s, run[..n]).value;
      OwnIsUsedUp(s, run[..n], t);
      StepKeepsInv(mid, run[n]);
      if OwnStep(run[n], t) {
        OwnStepLowers(mid, run[n], t);
      } else {
        OthersLeaveJoin(mid, run[n], t);
      }
    }
  }

  /** The steps that the handler of `x` has left in its call of `Publish`. */
  function CallLeft(s: State, x: nat): nat {
    if Handler(x) !in s.calls then 0
    else match s.calls[Handler(x)]
         case Asking => 3
         case Reading => 2
         case _ => 1
  }

  predicate IsStopped(s: State, x: nat) {
    DrainSafety.WasStopped(s.life, x) && s.life.subs[x].cancelled
  }

  lemma LifeStepLowers(s: L.State, a: L.Action, x: nat)
    requires L.Enabled(s, a) && DrainSafety.WasStopped(s, x) && s.subs[x].cancelled
    ensures DrainSafety.WasStopped(L.Next(s, a), x) && L.Next(s, a).subs[x].cancelled
    ensures Weight(L.Next(s, a), x) + (if IsLoopStep(a, [x]) then 1 else 0) <= Weight(s, x)
  {
    StopsStay(s, a, [x]);
    assert [x][0] == x;
    assert AllStopped(L.Next(s, a), [x]);
    match a
    case OfBroker(b) => BrokerLeavesHandlers(s, b);
    case OfSub(u) =>
      SubStepLowers(s, u, [x]);
      assert Weight(L.SubNext(s, u), [x][0]) <= Weight(s, [x][0]);
    case OfConsumer(c) => ConsumerLeavesHandlers(s, c);
  }

  lemma StepUsesUp(s: State, a: Action, x: nat)
    requires Enabled(s, a) && IsStopped(s, x)
    ensures IsStopped(Next(s, a), x)
    ensures Weight(Next(s, a).life, x) + CallLeft(Next(s, a), x) + (if StepOf(a, x) then 1 else 0)
         <= Weight(s.life, x) + CallLeft(s, x) + (if a == CallPublish(Handler(x)) then 4 else 0)
  {
    match a
    case Section(b) => LifeStepLowers(s.life, b, x);
    case SubscribeSection(_, y) => LifeStepLowers(s.life, L.OfSub(L.Subscribe(y)), x);
    case Outside(b) => LifeStepLowers(s.life, b, x);
    case _ =>
  }

  /** A stopped loop and its handler take at most six steps, and four for every further call of `Publish`. */
  lemma {:induction false} LoopIsUsedUp(s: State, run: seq<Action>, x: nat)
    requires IsStopped(s, x) && After(s, run).Some?
    ensures IsStopped(After(s, run).value, x)
    ensures StepsOf(run, x) + Weight(After(s, run).value.life, x) + CallLeft(After(s, run).value, x)
         <= Weight(s.life, x) + CallLeft(s, x) + 4 * CallsOf(run, x)
    decreases |run|
  {
    if run == [] {
    } else {
      var n := |run| - 1;
      LoopIsUsedUp(s, run[..n], x);
      StepUsesUp(After(s, run[..n]).value, run[n], x);
    }
  }

  /** The steps of all loops together. */
  function AllStepsOf(run: seq<Action>, captured: seq<nat>): nat {
    if captured == [] then 0
    else AllStepsOf(run, captured[..|captured| - 1]) + StepsOf(run, captured[|captured| - 1])
  }

  lemma {:induction false} AllAreBounded(s: State, run: seq<Action>, captured: seq<nat>, calls: nat)
    requires After(s, run).Some? && forall k | 0 <= k < |captured| :: IsStopped(s, captured[k])
    requires forall k | 0 <= k < |captured| :: CallsOf(run, captured[k]) <= calls
    ensures AllStepsOf(run, captured) <= |captured| * (6 + 4 * calls)
    decreases |captured|
  {
    if captured == [] {
    } else {
      var n := |captured| - 1;
      assert forall k | 0 <= k < n :: captured[..n][k] == captured[k];
      AllAreBounded(s, run, captured[..n], calls);
      LoopIsUsedUp(s, run, captured[n]);
      Scale(n, n, 6 + 4 * calls);
    }
  }

  /** Main result. Once a drain has stopped its captured subscribers, and as long as each of their handlers
      makes at most `calls` more calls of `Publish`, the drain, the loops and the handlers together take a
      bounded number of steps; when the drain's own share is used up it has returned. */
  lemma DrainIsBoundedWithCalls(run: seq<Action>, s: State, t: nat, more: seq<Action>, u: State, calls: nat)
    requires After(INIT, run) == Some(s) && t in s.life.threads && s.life.threads[t].DiscJoin?
    requires After(s, more) == Some(u)
    requires forall k | 0 <= k < |s.life.threads[t].captured| :: CallsOf(more, s.life.threads[t].captured[k]) <= calls
    ensures var captured := s.life.threads[t].captured;
      && OwnSteps(more, t) + AllStepsOf(more, captured) <= |captured| + 3 + |captured| * (6 + 4 * calls)
      && (OwnSteps(more, t) >= OwnLeft(s, t) ==> t in u.life.threads && u.life.threads[t].DiscReturned?)
  {
    RunKeepsInv(run);
    RunsBelow(run);
    GracefulStop.RunKeepsInv(LifeRun(run));
    assert DrainSafety.ThreadOk(s.life, s.life.threads[t]);
    OwnIsUsedUp(s, more, t);
    AllAreBounded(s, more, s.life.threads[t].captured, calls);
  }
}
