/** The lifecycle of the Redis broker (`broker/redis/redis.go`) and of a consumer on top of it
    (`consumer/default_consumer.go`), with any number of concurrent callers. Every lock section and
    every channel wait is one atomic step. */
module Lifecycle {
  import opened Prelude

  /** The lock-guarded fields of the broker; `draining` is `disconnectDone`, naming its channel. */
  datatype Broker = Broker(connected: bool, draining: Option<nat>, subscribers: seq<nat>)

  datatype ConnectResult = ConnectWaits(channel: nat) | Connected | Refused
  datatype DisconnectResult = DisconnectWaits(channel: nat) | NotConnected | Drains(captured: seq<nat>)

  /** The lock section of `Connect`: `accepted` stands for the option guard and the ping. */
  function ConnectSection(b: Broker, accepted: bool): (Broker, ConnectResult) {
    if b.draining.Some? then (b, ConnectWaits(b.draining.value))
    else if b.connected then (b, Connected)
    else if accepted then (b.(connected := true), Connected)
    else (b, Refused)
  }

  /** The first lock section of `Disconnect`; `channel` is the one it makes. */
  function DisconnectSection(b: Broker, channel: nat): (Broker, DisconnectResult) {
    if b.draining.Some? then (b, DisconnectWaits(b.draining.value))
    else if !b.connected then (b, NotConnected)
    else (Broker(false, Some(channel), []), Drains(b.subscribers))
  }

  /** The second lock section of `Disconnect`. */
  function FinishSection(b: Broker): Broker {
    b.(draining := None)
  }

  /** The lock section of `Subscribe`, for a subscriber `x`: nothing happens unless connected. */
  function SubscribeSection(b: Broker, x: nat): Broker {
    if b.connected then b.(subscribers := b.subscribers + [x]) else b
  }

  /** A consumer loop: between two messages, past the context check of a message, inside its handler,
      or ended with `done` closed. */
  datatype LoopPc = Between | Committed | InHandler | Ended

  /** A subscriber: how often `exit` was closed, whether `stopOnce` has fired, whether its context is
      cancelled, and whether the consumer (rather than a direct caller) created it. */
  datatype Sub = Sub(exitCloses: nat, stopped: bool, cancelled: bool, loop: LoopPc, ofConsumer: bool)

  /** Where a calling goroutine is. `before` are the subscribers registered when its `Disconnect`
      was called. */
  datatype Pc =
    | Free
    | ConnectEnter
    | ConnectWait(channel: nat)
    | DiscEnter(before: set<nat>)
    | DiscWait(channel: nat, before: set<nat>)
    | DiscStop(channel: nat, captured: seq<nat>, i: nat, before: set<nat>)
    | DiscJoin(channel: nat, captured: seq<nat>, i: nat, before: set<nat>)
    | DiscReturned(before: set<nat>)
    | UnsubStop(x: nat)
    | UnsubWait(x: nat)
    | UnsubReturned(x: nat)
    | StartConnect
    | StartWait(channel: nat)
    | Starting
    | StopUnsub(toStop: set<nat>, toJoin: set<nat>)
    | StopUnlocked
    | StopDrain
    | StopDisc

  /** `closes` counts how often each `disconnectDone` channel was closed, `drainer` is the goroutine
      that is draining, `inFlight` the consumer's wait group, `entries` the consumer's non-nil broker
      subscriptions, and `holder` the goroutine holding the consumer's lock. */
  datatype State = State(broker: Broker, closes: map<nat, nat>, drainer: Option<nat>, subs: map<nat, Sub>,
                         threads: map<nat, Pc>, inFlight: int, started: bool, entries: set<nat>, holder: Option<nat>)

  const INIT: State := State(Broker(false, None, []), map[], None, map[], map[], 0, false, {}, None)

  /** Steps of `Connect` and `Disconnect`. */
  datatype BrokerAction =
    | NewThread(t: nat)
    | CallConnect(t: nat)
    | ConnectLocked(t: nat, accepted: bool)
    | ConnectWoken(t: nat)
    | CallDisconnect(t: nat)
    | DisconnectLocked(t: nat, channel: nat)
    | DisconnectWoken(t: nat)
    | DrainStop(t: nat)
    | DrainJoin(t: nat)
    | DrainFinish(t: nat)

  /** Steps of `Subscribe`, `Unsubscribe` and the consumer loops. */
  datatype SubAction =
    | Subscribe(x: nat)
    | CallUnsubscribe(t: nat, x: nat)
    | UnsubscribeStop(t: nat)
    | UnsubscribeWoken(t: nat)
    | CancelParent(x: nat)
    | PassesCheck(x: nat)
    | HandlerEnters(x: nat)
    | HandlerLeaves(x: nat)
    | LoopEnds(x: nat)

  /** Steps of the consumer's `Start` and `Stop`. */
  datatype ConsumerAction =
    | StartBegins(t: nat)
    | StartConnects(t: nat, accepted: bool)
    | StartWoken(t: nat)
    | StartSubscribes(t: nat, x: nat)
    | StartEnds(t: nat, ok: bool)
    | StopBegins(t: nat)
    | StopOne(t: nat, x: nat)
    | StopJoins(t: nat, x: nat)
    | StopUnlocks(t: nat)
    | StopMarks(t: nat)
    | StopDrained(t: nat)
    | StopDisconnects(t: nat)

  datatype Action = OfBroker(b: BrokerAction) | OfSub(u: SubAction) | OfConsumer(c: ConsumerAction)

  predicate At(s: State, t: nat, pc: Pc) {
    t in s.threads && s.threads[t] == pc
  }

  predicate HasEnded(s: State, x: nat) {
    x in s.subs && s.subs[x].loop == Ended
  }

  predicate Closed(s: State, channel: nat) {
    channel in s.closes && s.closes[channel] > 0
  }

  function Goto(s: State, t: nat, pc: Pc): State {
    s.(threads := s.threads[t := pc])
  }

  /** `stop`: `stopOnce` closes `exit` and cancels the context the first time only. */
  function Stop(s: State, x: nat): State {
    if x !in s.subs || s.subs[x].stopped then s
    else s.(subs := s.subs[x := s.subs[x].(exitCloses := s.subs[x].exitCloses + 1, stopped := true, cancelled := true)])
  }

  function Register(s: State, x: nat, ofConsumer: bool): State {
    s.(broker := SubscribeSection(s.broker, x), subs := s.subs[x := Sub(0, false, false, Between, ofConsumer)])
  }

  /** A goroutine that is somewhere in the consumer's `Start`. */
  predicate InStart(pc: Pc) {
    pc.StartConnect? || pc.StartWait? || pc.Starting?
  }

  /** A goroutine that is somewhere in the consumer's `Stop`, up to its call of `Disconnect`. */
  predicate Stopping(pc: Pc) {
    pc.StopUnsub? || pc.StopUnlocked? || pc.StopDrain? || pc.StopDisc?
  }

  predicate BrokerEnabled(s: State, a: BrokerAction) {
    match a
    case NewThread(t) => t !in s.threads
    case CallConnect(t) => At(s, t, Free)
    case ConnectLocked(t, _) => At(s, t, ConnectEnter)
    case ConnectWoken(t) => t in s.threads && s.threads[t].ConnectWait? && Closed(s, s.threads[t].channel)
    case CallDisconnect(t) => At(s, t, Free)
    case DisconnectLocked(t, channel) => t in s.threads && s.threads[t].DiscEnter? && channel !in s.closes
    case DisconnectWoken(t) => t in s.threads && s.threads[t].DiscWait? && Closed(s, s.threads[t].channel)
    case DrainStop(t) => t in s.threads && s.threads[t].DiscStop?
    case DrainJoin(t) =>
      && t in s.threads && s.threads[t].DiscJoin? && s.threads[t].i < |s.threads[t].captured|
      && HasEnded(s, s.threads[t].captured[s.threads[t].i])
    case DrainFinish(t) => t in s.threads && s.threads[t].DiscJoin? && s.threads[t].i >= |s.threads[t].captured|
  }

  predicate SubEnabled(s: State, a: SubAction) {
    match a
    case Subscribe(x) => s.broker.connected && x !in s.subs
    case CallUnsubscribe(t, x) => At(s, t, Free) && x in s.subs
    case UnsubscribeStop(t) => t in s.threads && s.threads[t].UnsubStop?
    case UnsubscribeWoken(t) => t in s.threads && s.threads[t].UnsubWait? && HasEnded(s, s.threads[t].x)
    case CancelParent(x) => x in s.subs
    case PassesCheck(x) => x in s.subs && s.subs[x].loop == Between && !s.subs[x].cancelled
    case HandlerEnters(x) => x in s.subs && s.subs[x].loop == Committed
    case HandlerLeaves(x) => x in s.subs && s.subs[x].loop == InHandler
    case LoopEnds(x) => x in s.subs && s.subs[x].loop == Between && s.subs[x].cancelled
  }

  predicate ConsumerEnabled(s: State, a: ConsumerAction) {
    match a
    case StartBegins(t) =>
      At(s, t, Free) && s.holder.None? && !s.started && (forall u | u in s.threads :: !Stopping(s.threads[u]))
    case StartConnects(t, _) => At(s, t, StartConnect)
    case StartWoken(t) => t in s.threads && s.threads[t].StartWait? && Closed(s, s.threads[t].channel)
    case StartSubscribes(t, x) => At(s, t, Starting) && s.broker.connected && x !in s.subs
    case StartEnds(t, _) => At(s, t, Starting)
    case StopBegins(t) => At(s, t, Free) && s.holder.None?
    case StopOne(t, x) => t in s.threads && s.threads[t].StopUnsub? && x in s.threads[t].toStop
    case StopJoins(t, x) =>
      && t in s.threads && s.threads[t].StopUnsub?
      && x in s.threads[t].toJoin && x !in s.threads[t].toStop && HasEnded(s, x)
    case StopUnlocks(t) => At(s, t, StopUnsub({}, {}))
    case StopMarks(t) => At(s, t, StopUnlocked)
    case StopDrained(t) => At(s, t, StopDrain) && s.inFlight == 0
    case StopDisconnects(t) => At(s, t, StopDisc)
  }

  predicate Enabled(s: State, a: Action) {
    match a
    case OfBroker(b) => BrokerEnabled(s, b)
    case OfSub(u) => SubEnabled(s, u)
    case OfConsumer(c) => ConsumerEnabled(s, c)
  }

  function AfterConnect(s: State, t: nat, accepted: bool): State {
    var (b, r) := ConnectSection(s.broker, accepted);
    Goto(s.(broker := b), t, if r.ConnectWaits? then ConnectWait(r.channel) else Free)
  }

  function AfterDisconnect(s: State, t: nat, channel: nat): State
    requires t in s.threads && s.threads[t].DiscEnter?
  {
    var before := s.threads[t].before;
    var (b, r) := DisconnectSection(s.broker, channel);
    match r
    case DisconnectWaits(c) => Goto(s.(broker := b), t, DiscWait(c, before))
    case NotConnected => Goto(s.(broker := b), t, DiscReturned(before))
    case Drains(captured) =>
      Goto(s.(broker := b, closes := s.closes[channel := 0], drainer := Some(t)), t,
           DiscStop(channel, captured, 0, before))
  }

  function AfterDrainStop(s: State, t: nat): State
    requires t in s.threads && s.threads[t].DiscStop?
  {
    var pc := s.threads[t];
    if pc.i < |pc.captured| then Goto(Stop(s, pc.captured[pc.i]), t,
                                       DiscStop(pc.channel, pc.captured, pc.i + 1, pc.before))
    else Goto(s, t, DiscJoin(pc.channel, pc.captured, 0, pc.before))
  }

  /** `close(b.disconnectDone)` closes whatever channel the field names at that moment. */
  function AfterDrain(s: State, t: nat): State
    requires t in s.threads && s.threads[t].DiscJoin?
  {
    var closes := if s.broker.draining.Some? && s.broker.draining.value in s.closes
                  then s.closes[s.broker.draining.value := s.closes[s.broker.draining.value] + 1] else s.closes;
    Goto(s.(broker := FinishSection(s.broker), closes := closes, drainer := None), t, DiscReturned(s.threads[t].before))
  }

  /** `Start` connects the broker, under the consumer's lock, and gives up if it cannot. */
  function AfterStartConnects(s: State, t: nat, accepted: bool): State {
    var (b, r) := ConnectSection(s.broker, accepted);
    match r
    case ConnectWaits(c) => Goto(s.(broker := b), t, StartWait(c))
    case Connected => Goto(s.(broker := b), t, Starting)
    case Refused => Goto(s.(broker := b, holder := None), t, Free)
  }

  function Count(sub: Sub): int {
    if sub.ofConsumer then 1 else 0
  }

  function BrokerNext(s: State, a: BrokerAction): State
    requires BrokerEnabled(s, a)
  {
    match a
    case NewThread(t) => Goto(s, t, Free)
    case CallConnect(t) => Goto(s, t, ConnectEnter)
    case ConnectLocked(t, accepted) => AfterConnect(s, t, accepted)
    case ConnectWoken(t) => Goto(s, t, ConnectEnter)
    case CallDisconnect(t) => Goto(s, t, DiscEnter(s.subs.Keys))
    case DisconnectLocked(t, channel) => AfterDisconnect(s, t, channel)
    case DisconnectWoken(t) => Goto(s, t, DiscReturned(s.threads[t].before))
    case DrainStop(t) => AfterDrainStop(s, t)
    case DrainJoin(t) => Goto(s, t, s.threads[t].(i := s.threads[t].i + 1))
    case DrainFinish(t) => AfterDrain(s, t)
  }

  function SubNext(s: State, a: SubAction): State
    requires SubEnabled(s, a)
  {
    match a
    case Subscribe(x) => Register(s, x, false)
    case CallUnsubscribe(t, x) => Goto(s, t, UnsubStop(x))
    case UnsubscribeStop(t) => Goto(Stop(s, s.threads[t].x), t, UnsubWait(s.threads[t].x))
    case UnsubscribeWoken(t) => Goto(s, t, UnsubReturned(s.threads[t].x))
    case CancelParent(x) => s.(subs := s.subs[x := s.subs[x].(cancelled := true)])
    case PassesCheck(x) => s.(subs := s.subs[x := s.subs[x].(loop := Committed)])
    case HandlerEnters(x) =>
      s.(subs := s.subs[x := s.subs[x].(loop := InHandler)], inFlight := s.inFlight + Count(s.subs[x]))
    case HandlerLeaves(x) =>
      s.(subs := s.subs[x := s.subs[x].(loop := Between)], inFlight := s.inFlight - Count(s.subs[x]))
    case LoopEnds(x) => s.(subs := s.subs[x := s.subs[x].(loop := Ended)])
  }

  function ConsumerNext(s: State, a: ConsumerAction): State
    requires ConsumerEnabled(s, a)
  {
    match a
    case StartBegins(t) => Goto(s.(holder := Some(t)), t, StartConnect)
    case StartConnects(t, accepted) => AfterStartConnects(s, t, accepted)
    case StartWoken(t) => Goto(s, t, StartConnect)
    case StartSubscribes(t, x) => Register(s, x, true).(entries := s.entries + {x})
    case StartEnds(t, ok) => Goto(s.(holder := None, started := ok), t, Free)
    case StopBegins(t) =>
      if s.started then Goto(s.(holder := Some(t), entries := {}), t, StopUnsub(s.entries, s.entries)) else s
    case StopOne(t, x) => Goto(Stop(s, x), t, s.threads[t].(toStop := s.threads[t].toStop - {x}))
    case StopJoins(t, x) => Goto(s, t, s.threads[t].(toJoin := s.threads[t].toJoin - {x}))
    case StopUnlocks(t) => Goto(s.(holder := None), t, StopUnlocked)
    case StopMarks(t) => Goto(s.(started := false), t, StopDrain)
    case StopDrained(t) => Goto(s, t, StopDisc)
    case StopDisconnects(t) => Goto(s, t, DiscEnter(s.subs.Keys))
  }

  function Next(s: State, a: Action): State
    requires Enabled(s, a)
  {
    match a
    case OfBroker(b) => BrokerNext(s, b)
    case OfSub(u) => SubNext(s, u)
    case OfConsumer(c) => ConsumerNext(s, c)
  }

  function After(s: State, run: seq<Action>): Option<State>
    decreases |run|
  {
    if run == [] then Some(s)
    else match After(s, run[..|run| - 1])
         case None => None
         case Some(mid) => if Enabled(mid, run[|run| - 1]) then Some(Next(mid, run[|run| - 1])) else None
  }
}
