/** The at-least-once delivery protocol of `broker/redis/redis.go`: any number of publishers and
    consumer loops over one stream and group, with crashes, lost replies, failed and stale
    acknowledgements, handler panics and reclaims. Each action is one atomic step; an action's
    fields resolve every choice of the environment. The handler of a loop is the retry middleware
    of `wrapper/retry/retry.go` inside the panic guard of `consumer/subscriber.go`. */
module Delivery {
  import opened Prelude
  import Wire
  import opened Streams
  import Retry

  /** Broker options, fixed for the run. */
  datatype Config = Config(minIdle: int, interval: int, count: int, topic: string)

  /** Which command filled the batch in hand. */
  datatype Source = FromClaim | FromRead

  /** The connection check at the start of a dead-letter `Publish`. */
  datatype Gate = NotAsked | Open | Closed

  /** Where a consumer loop is. `Check(i)` is the head of `handleMessages` at message `i`, `Ready`
      follows its context check, `Handling` is inside the handler, `Acking` before the automatic
      XACK, and `Pausing` the second after a failed read. */
  datatype Pc =
    | Top
    | AtClaim
    | AtRead
    | Check(i: nat)
    | Ready(i: nat)
    | Handling(i: nat, rpc: Retry.Pc, gate: Gate)
    | Acking(i: nat)
    | Pausing
    | Exited
    | Crashed

  datatype Loop = Loop(owner: string, autoAck: bool, retry: Retry.Options, now: int, cursor: nat, nextClaim: int,
                       batch: seq<nat>, src: Source, pc: Pc, cancelled: bool)

  datatype Delivered = Delivered(id: nat, at: int, to: nat)
  datatype DeadLetter = DeadLetter(id: nat, letter: Message)

  /** `deliveries` is the history of entries the server handed out, `succeeded` the ids for which
      some attempt of the business handler returned nil, `dlq` the accepted dead letters, `refused`
      the ids for which a dead-letter publish reported an error, and `manual` the ids a handler
      acknowledged itself. */
  datatype State = State(group: Group, published: seq<Message>, clock: int, connected: bool, loops: map<nat, Loop>,
                         deliveries: seq<Delivered>, succeeded: set<nat>, dlq: seq<DeadLetter>, refused: set<nat>,
                         manual: set<nat>)

  datatype AckOutcome = AckDone | AckDoneReplyLost | AckNotDone

  datatype Action =
    | Publish(entry: Wire.Entry, message: Message)
    | Tick(d: nat)
    | LocalTick(l: nat, d: nat)
    | SetConnected(up: bool)
    | Spawn(l: nat, owner: string, autoAck: bool, retry: Retry.Options)
    | Cancel(l: nat)
    | Crash(l: nat)
    | Decide(l: nat)
    | Claim(l: nat, stop: nat, replyLost: bool)
    | ClaimFailed(l: nat)
    | Read(l: nat, replyLost: bool)
    | ReadNothing(l: nat)
    | ReadFailed(l: nat)
    | Resume(l: nat)
    | CheckNext(l: nat)
    | CallHandler(l: nat)
    | AskDlq(l: nat)
    | HandlerEvent(l: nat, ev: Retry.Event, stored: bool)
    | HandlerReturns(l: nat)
    | AutoAck(l: nat, outcome: AckOutcome)
    | ManualAck(id: nat)

  const INIT: State := State(EMPTY, [], 0, true, map[], [], {}, [], {}, {})

  predicate At(s: State, l: nat, pc: Pc) {
    l in s.loops && s.loops[l].pc == pc
  }

  predicate Live(loop: Loop) {
    loop.pc != Exited && loop.pc != Crashed
  }

  // ---- One function per action of a loop ----

  function Set(s: State, l: nat, loop: Loop): State {
    s.(loops := s.loops[l := loop])
  }

  function Goto(s: State, l: nat, pc: Pc): State
    requires l in s.loops
  {
    Set(s, l, s.loops[l].(pc := pc))
  }

  function Log(ids: seq<nat>, at: int, to: nat): seq<Delivered> {
    seq(|ids|, i requires 0 <= i < |ids| => Delivered(ids[i], at, to))
  }

  /** The id of message `i` of the batch in hand. */
  function IdAt(loop: Loop, i: nat): nat {
    if i < |loop.batch| then loop.batch[i] else 0
  }

  /** What the handler of message `i` of the batch receives. */
  function Incoming(cfg: Config, s: State, loop: Loop, i: nat): Retry.Incoming {
    var id := IdAt(loop, i);
    var entry := if 1 <= id <= |s.group.log| then s.group.log[id - 1] else [];
    Retry.Incoming(cfg.topic, Wire.Received(entry))
  }

  /** The head of `consumeLoop`: the context check, then the clock. */
  function Decided(loop: Loop): Pc {
    if loop.cancelled then Exited else if loop.now >= loop.nextClaim then AtClaim else AtRead
  }

  /** The error branch after XAUTOCLAIM. */
  function AfterClaimError(cfg: Config, loop: Loop): Loop {
    if loop.cancelled then loop.(pc := Exited) else loop.(pc := AtRead, nextClaim := loop.now + cfg.interval)
  }

  /** The error branch after XREADGROUP. */
  function AfterReadError(loop: Loop): Loop {
    loop.(pc := if loop.cancelled then Exited else Pausing)
  }

  /** Back at the head after an empty read or a pause, unless the context is done. */
  function Restart(loop: Loop): Pc {
    if loop.cancelled then Exited else Top
  }

  /** Leaving `handleMessages`: after a scan the next one is scheduled and the loop reads; after a
      read it starts over. */
  function EndBatch(cfg: Config, loop: Loop): Loop {
    if loop.src == FromClaim then loop.(pc := AtRead, nextClaim := loop.now + cfg.interval) else loop.(pc := Top)
  }

  function Claimed(cfg: Config, s: State, l: nat, stop: nat, replyLost: bool): State
    requires l in s.loops
  {
    var loop := s.loops[l];
    var ids := Claims(s.group, loop.cursor, stop, cfg.minIdle, s.clock);
    Set(s.(group := AutoClaim(s.group, loop.owner, loop.cursor, stop, cfg.minIdle, s.clock),
           deliveries := s.deliveries + Log(ids, s.clock, l)), l,
        if replyLost then AfterClaimError(cfg, loop)
        else loop.(cursor := NextCursor(s.group, stop), batch := ids, src := FromClaim, pc := Check(0)))
  }

  function WasRead(cfg: Config, s: State, l: nat, replyLost: bool): State
    requires l in s.loops
  {
    var loop := s.loops[l];
    var ids := NewIds(s.group, cfg.count);
    Set(s.(group := ReadNew(s.group, loop.owner, cfg.count, s.clock),
           deliveries := s.deliveries + Log(ids, s.clock, l)), l,
        if replyLost then AfterReadError(loop) else loop.(batch := ids, src := FromRead, pc := Check(0)))
  }

  /** The head of `handleMessages`: the end of the batch, then the context check. */
  function Checked(cfg: Config, loop: Loop): Loop
    requires loop.pc.Check?
  {
    if loop.pc.i >= |loop.batch| || loop.cancelled then EndBatch(cfg, loop) else loop.(pc := Ready(loop.pc.i))
  }

  ghost predicate EventAllowed(cfg: Config, s: State, loop: Loop, ev: Retry.Event, stored: bool) {
    && loop.pc.Handling?
    && Retry.Step(loop.retry, Incoming(cfg, s, loop, loop.pc.i), loop.pc.rpc, ev).Some?
    && (ev.DlqPublish? ==>
          loop.pc.gate != NotAsked && (ev.refused.None? ==> stored) && (stored ==> loop.pc.gate == Open))
    && (stored ==> ev.DlqPublish?)
  }

  /** An event inside the handler. `stored` tells whether a dead letter reached the server, whatever
      the reply said. */
  function Handled(cfg: Config, s: State, l: nat, ev: Retry.Event, stored: bool): State
    requires l in s.loops && EventAllowed(cfg, s, s.loops[l], ev, stored)
  {
    var loop := s.loops[l];
    var rpc := Retry.Step(loop.retry, Incoming(cfg, s, loop, loop.pc.i), loop.pc.rpc, ev).value;
    var id := IdAt(loop, loop.pc.i);
    Set(s.(succeeded := s.succeeded + (if ev == Retry.Attempt(Retry.Ok) then {id} else {}),
           dlq := s.dlq + (if stored then [DeadLetter(id, ev.letter)] else []),
           refused := s.refused + (if ev.DlqPublish? && ev.refused.Some? then {id} else {})), l,
        loop.(pc := loop.pc.(rpc := rpc)))
  }

  /** The panic guard turns a panic into an error; only a nil result is acknowledged. */
  function Outcome(loop: Loop): Pc
    requires loop.pc.Handling?
  {
    if loop.pc.rpc == Retry.Returned(None) && loop.autoAck then Acking(loop.pc.i) else Check(loop.pc.i + 1)
  }

  function AutoAcked(s: State, l: nat, outcome: AckOutcome): State
    requires l in s.loops && s.loops[l].pc.Acking?
  {
    var loop := s.loops[l];
    Set(s.(group := if outcome == AckNotDone then s.group else Streams.Ack(s.group, IdAt(loop, loop.pc.i))), l,
        loop.(pc := Check(loop.pc.i + 1)))
  }

  // ---- The step relation ----

  ghost predicate Enabled(cfg: Config, s: State, a: Action) {
    match a
    case Publish(entry, message) => Wire.Lists(entry, Wire.Fields(message))
    case Tick(_) => true
    case LocalTick(l, _) => l in s.loops
    case SetConnected(_) => true
    case Spawn(l, _, _, _) => l !in s.loops
    case Cancel(l) => l in s.loops
    case Crash(l) => l in s.loops && Live(s.loops[l])
    case Decide(l) => At(s, l, Top)
    case Claim(l, stop, _) =>
      At(s, l, AtClaim) && LegalScan(s.group, s.loops[l].cursor, stop, cfg.count, cfg.minIdle, s.clock)
    case ClaimFailed(l) => At(s, l, AtClaim)
    case Read(l, _) => At(s, l, AtRead) && Undelivered(s.group) > 0
    case ReadNothing(l) => At(s, l, AtRead) && Undelivered(s.group) <= 0
    case ReadFailed(l) => At(s, l, AtRead)
    case Resume(l) => At(s, l, Pausing)
    case CheckNext(l) => l in s.loops && s.loops[l].pc.Check?
    case CallHandler(l) => l in s.loops && s.loops[l].pc.Ready?
    case AskDlq(l) =>
      l in s.loops && s.loops[l].pc.Handling? && s.loops[l].pc.rpc.DlqSend? && s.loops[l].pc.gate == NotAsked
    case HandlerEvent(l, ev, stored) => l in s.loops && EventAllowed(cfg, s, s.loops[l], ev, stored)
    case HandlerReturns(l) =>
      l in s.loops && s.loops[l].pc.Handling? && (s.loops[l].pc.rpc.Returned? || s.loops[l].pc.rpc.Panicked?)
    case AutoAck(l, _) => l in s.loops && s.loops[l].pc.Acking?
    case ManualAck(id) => 1 <= id <= s.group.last
  }

  function Next(cfg: Config, s: State, a: Action): State
    requires Enabled(cfg, s, a)
  {
    match a
    case Publish(entry, message) => s.(group := Add(s.group, entry), published := s.published + [message])
    case Tick(d) => s.(clock := s.clock + d)
    case LocalTick(l, d) => Set(s, l, s.loops[l].(now := s.loops[l].now + d))
    case SetConnected(up) => s.(connected := up)
    case Spawn(l, owner, autoAck, retry) =>
      Set(s, l, Loop(owner, autoAck, retry, 0, 0, 0, [], FromRead, Top, false))
    case Cancel(l) => Set(s, l, s.loops[l].(cancelled := true))
    case Crash(l) => Goto(s, l, Crashed)
    case Decide(l) => Goto(s, l, Decided(s.loops[l]))
    case Claim(l, stop, replyLost) => Claimed(cfg, s, l, stop, replyLost)
    case ClaimFailed(l) => Set(s, l, AfterClaimError(cfg, s.loops[l]))
    case Read(l, replyLost) => WasRead(cfg, s, l, replyLost)
    case ReadNothing(l) => Goto(s, l, Restart(s.loops[l]))
    case ReadFailed(l) => Set(s, l, AfterReadError(s.loops[l]))
    case Resume(l) => Goto(s, l, Restart(s.loops[l]))
    case CheckNext(l) => Set(s, l, Checked(cfg, s.loops[l]))
    case CallHandler(l) => Goto(s, l, Handling(s.loops[l].pc.i, Retry.Start(s.loops[l].retry), NotAsked))
    case AskDlq(l) => Goto(s, l, s.loops[l].pc.(gate := if s.connected then Open else Closed))
    case HandlerEvent(l, ev, stored) => Handled(cfg, s, l, ev, stored)
    case HandlerReturns(l) => Goto(s, l, Outcome(s.loops[l]))
    case AutoAck(l, outcome) => AutoAcked(s, l, outcome)
    case ManualAck(id) => s.(group := Streams.Ack(s.group, id), manual := s.manual + {id})
  }

  /** The state a sequence of actions leads to, if each is enabled where it happens. */
  ghost function After(cfg: Config, s: State, run: seq<Action>): Option<State>
    decreases |run|
  {
    if run == [] then Some(s)
    else match After(cfg, s, run[..|run| - 1])
         case None => None
         case Some(mid) =>
           if Enabled(cfg, mid, run[|run| - 1]) then Some(Next(cfg, mid, run[|run| - 1])) else None
  }

  lemma RunAppends(cfg: Config, s: State, run: seq<Action>, a: Action)
    requires After(cfg, s, run).Some? && Enabled(cfg, After(cfg, s, run).value, a)
    ensures After(cfg, s, run + [a]) == Some(Next(cfg, After(cfg, s, run).value, a))
  {
    assert (run + [a])[..|run|] == run;
  }

  lemma {:induction false} RunsConcat(cfg: Config, s: State, a: seq<Action>, b: seq<Action>)
    requires After(cfg, s, a).Some?
    ensures After(cfg, s, a + b) == After(cfg, After(cfg, s, a).value, b)
    decreases |b|
  {
    if b == [] {
      assert a + b == a;
    } else {
      assert (a + b)[..|a + b| - 1] == a + b[..|b| - 1];
      RunsConcat(cfg, s, a, b[..|b| - 1]);
    }
  }

  // ---- Facts shared by the theorems ----

  /** The loop an action moves, if any. */
  function Mover(a: Action): Option<nat> {
    match a
    case Publish(_, _) => None
    case Tick(_) => None
    case SetConnected(_) => None
    case ManualAck(_) => None
    case _ => Some(a.l)
  }

  lemma OthersUnmoved(cfg: Config, s: State, a: Action, l: nat)
    requires Enabled(cfg, s, a) && Mover(a) != Some(l)
    ensures l in s.loops <==> l in Next(cfg, s, a).loops
    ensures l in s.loops ==> Next(cfg, s, a).loops[l] == s.loops[l]
  {
  }

  /** Every step keeps the partition of ids into undelivered, pending and acknowledged. */
  lemma StepKeepsValid(cfg: Config, s: State, a: Action)
    requires Valid(s.group) && Enabled(cfg, s, a)
    ensures Valid(Next(cfg, s, a).group)
  {
    match a
    case Publish(entry, _) => AddKeeps(s.group, entry);
    case Claim(l, stop, _) =>
      AutoClaimKeeps(s.group, s.loops[l].owner, s.loops[l].cursor, stop, cfg.minIdle, s.clock);
    case Read(l, _) => ReadNewKeeps(s.group, s.loops[l].owner, cfg.count, s.clock);
    case AutoAck(l, _) => AckKeeps(s.group, IdAt(s.loops[l], s.loops[l].pc.i));
    case ManualAck(id) => AckKeeps(s.group, id);
    case _ =>
  }

  /** What one step adds to the delivery history. */
  ghost function Handout(cfg: Config, s: State, a: Action): seq<nat>
    requires Enabled(cfg, s, a)
  {
    match a
    case Claim(l, stop, _) => Claims(s.group, s.loops[l].cursor, stop, cfg.minIdle, s.clock)
    case Read(_, _) => NewIds(s.group, cfg.count)
    case _ => []
  }

  /** A loop's batch is what was just handed out, or what it was. */
  lemma BatchIs(cfg: Config, s: State, a: Action)
    requires Enabled(cfg, s, a) && Mover(a).Some?
    ensures a.l in Next(cfg, s, a).loops
    ensures var batch := Next(cfg, s, a).loops[a.l].batch;
      batch == Handout(cfg, s, a) || batch == [] || (a.l in s.loops && batch == s.loops[a.l].batch)
  {
  }

  /** The history grows by exactly the ids handed out, stamped with the server's time; those ids
      are distinct, become pending with the loop as of now, and were either never delivered or long idle. */
  lemma HandoutFacts(cfg: Config, s: State, a: Action)
    requires Valid(s.group) && Enabled(cfg, s, a)
    ensures var ids, t := Handout(cfg, s, a), Next(cfg, s, a);
      && Increasing(ids)
      && t.deliveries == s.deliveries + (if Mover(a).Some? then Log(ids, s.clock, a.l) else [])
      && (Mover(a).Some? && a.l in s.loops ==>
            forall x | x in ids :: x in t.group.pel && t.group.pel[x] == Pending(s.loops[a.l].owner, s.clock))
      && (forall x | x in ids :: x in t.group.pel && t.group.pel[x].at == s.clock)
      && (forall x | x in ids ::
            x > s.group.last || (x in s.group.pel && s.clock - s.group.pel[x].at >= cfg.minIdle))
      && (forall x | x in t.group.pel && x !in ids :: x in s.group.pel && t.group.pel[x] == s.group.pel[x])
      && t.clock >= s.clock
      && s.group.last <= t.group.last
      && (a.Read? || t.group.last == s.group.last)
  {
    match a
    case Claim(l, stop, _) =>
      ClaimsFacts(s.group, s.loops[l].cursor, stop, cfg.minIdle, s.clock);
      AutoClaimDelivers(s.group, s.loops[l].owner, s.loops[l].cursor, stop, cfg.minIdle, s.clock);
    case Read(l, _) => ReadNewDelivers(s.group, s.loops[l].owner, cfg.count, s.clock);
    case _ =>
  }
}
