/** The retry middleware (`wrapper/retry/retry.go`): a small machine whose events are the
    middleware's interactions with its surroundings, and the loop itself, proved to be a run of
    that machine. */
module Retry {
  import opened Prelude
  import Backoff

  /** What the backoff settings amount to: the sleep after each failed attempt, and its cap. */
  datatype Schedule = Schedule(delays: seq<int>, cap: int)

  datatype Options = Options(maxRetries: int, backoff: Schedule, dlqTopic: string, hasDlqBroker: bool)

  function DelayAfter(o: Options, attempt: nat): int {
    if attempt < |o.backoff.delays| then Min(o.backoff.delays[attempt], o.backoff.cap) else o.backoff.cap
  }

  /** The schedule that the settings `p` yield for `n` attempts. */
  function ScheduleOf(p: Backoff.Policy, n: nat): Schedule {
    Schedule(seq(n, i requires 0 <= i => Backoff.Delay(p, i)), p.cap)
  }

  ghost predicate IsDelay(o: Options, p: Backoff.Policy, attempt: nat) {
    DelayAfter(o, attempt) == Backoff.Delay(p, attempt)
  }

  /** The schedule of `o` is the one that the settings `p` yield. */
  ghost predicate Follows(o: Options, p: Backoff.Policy) {
    o.backoff.cap == p.cap && forall attempt: nat | attempt < o.maxRetries :: IsDelay(o, p, attempt)
  }

  /** Every setting yields a schedule. */
  lemma ScheduleFollows(o: Options, p: Backoff.Policy)
    requires o.backoff == ScheduleOf(p, Max(0, o.maxRetries))
    ensures Follows(o, p)
  {
    forall attempt: nat | attempt < o.maxRetries
      ensures IsDelay(o, p, attempt)
    {
      assert o.backoff.delays[attempt] == Backoff.Delay(p, attempt);
    }
  }

  /** The sleep that the middleware computes is the scheduled one. */
  method ScheduledDelay(o: Options, p: Backoff.Policy, attempt: nat) returns (backoff: int)
    requires Follows(o, p) && attempt < o.maxRetries
    ensures backoff == DelayAfter(o, attempt)
  {
    backoff := Backoff.DelayFor(p, attempt);
    assert IsDelay(o, p, attempt);
  }

  /** What the middleware receives: the consumer message without its acknowledgement closure. */
  datatype Incoming = Incoming(topic: string, message: Message)

  datatype Outcome = Ok | Failed(reason: string) | Panic

  /** One interaction with the surroundings. A context check reports the context's error, an
      attempt is one call of the next handler, and a dead-letter publish reports the broker's
      error. */
  datatype Event =
    | CtxCheck(cancelled: Option<string>)
    | Attempt(outcome: Outcome)
    | Sleep(delay: int, interrupted: Option<string>)
    | DlqPublish(topic: string, letter: Message, refused: Option<string>)

  datatype Pc =
    | Looping(attempt: nat)
    | Calling(attempt: nat)
    | Sleeping(attempt: nat)
    | DlqCheck(lastErr: Option<string>)
    | DlqSend(reason: string)
    | Returned(err: Option<string>)
    | Panicked

  predicate HasDlq(o: Options) {
    o.dlqTopic != "" && o.hasDlqBroker
  }

  /** Where control goes once the loop is over. */
  function Exhausted(o: Options, lastErr: Option<string>): Pc {
    if HasDlq(o) then DlqCheck(lastErr) else Returned(lastErr)
  }

  /** With a negative `maxRetries` the loop body never runs and `lastErr` stays nil. */
  function Start(o: Options): Pc {
    if 0 <= o.maxRetries then Looping(0) else Exhausted(o, None)
  }

  function DeadLetter(m: Incoming, reason: string): Message {
    Message(m.message.header["X-Original-Topic" := m.topic]["X-Last-Error" := reason], m.message.body)
  }

  function Join(o: Options, reason: string, publishError: string): string {
    reason + "\n" + "publish to DLQ " + o.dlqTopic + ": " + publishError
  }

  /** The successor of `pc` under `ev`, or nothing when `ev` cannot happen there. Asking a nil
      error for its text panics. */
  function Step(o: Options, m: Incoming, pc: Pc, ev: Event): Option<Pc> {
    match (pc, ev)
    case (Looping(_), CtxCheck(Some(e))) => Some(Returned(Some(e)))
    case (Looping(a), CtxCheck(None)) => Some(Calling(a))
    case (Calling(_), Attempt(Ok)) => Some(Returned(None))
    case (Calling(a), Attempt(Failed(e))) =>
      if a == o.maxRetries then Some(Exhausted(o, Some(e))) else Some(Sleeping(a))
    case (Calling(_), Attempt(Panic)) => Some(Panicked)
    case (Sleeping(a), Sleep(d, Some(e))) =>
      if d == DelayAfter(o, a) then Some(Returned(Some(e))) else None
    case (Sleeping(a), Sleep(d, None)) =>
      if d == DelayAfter(o, a) then Some(Looping(a + 1)) else None
    case (DlqCheck(_), CtxCheck(Some(e))) => Some(Returned(Some(e)))
    case (DlqCheck(None), CtxCheck(None)) => Some(Panicked)
    case (DlqCheck(Some(reason)), CtxCheck(None)) => Some(DlqSend(reason))
    case (DlqSend(reason), DlqPublish(topic, letter, None)) =>
      if topic == o.dlqTopic && letter == DeadLetter(m, reason) then Some(Returned(None)) else None
    case (DlqSend(reason), DlqPublish(topic, letter, Some(pe))) =>
      if topic == o.dlqTopic && letter == DeadLetter(m, reason) then Some(Returned(Some(Join(o, reason, pe)))) else None
    case _ => None
  }

  /** Follows a whole trace. */
  function Exec(o: Options, m: Incoming, pc: Pc, trace: seq<Event>): Option<Pc>
    decreases |trace|
  {
    if trace == [] then Some(pc)
    else match Step(o, m, pc, trace[0])
         case None => None
         case Some(next) => Exec(o, m, next, trace[1..])
  }

  /** A trace the middleware can produce, ending where control is at `pc`. */
  predicate Run(o: Options, m: Incoming, trace: seq<Event>, pc: Pc) {
    Exec(o, m, Start(o), trace) == Some(pc)
  }

  lemma {:induction false} ExecAppends(o: Options, m: Incoming, pc: Pc, trace: seq<Event>, mid: Pc, ev: Event)
    requires Exec(o, m, pc, trace) == Some(mid)
    ensures Exec(o, m, pc, trace + [ev]) == Step(o, m, mid, ev)
    decreases |trace|
  {
    if trace == [] {
      assert trace + [ev] == [ev];
      assert [ev][1..] == [];
    } else {
      var next := Step(o, m, pc, trace[0]).value;
      ExecAppends(o, m, next, trace[1..], mid, ev);
      assert (trace + [ev])[1..] == trace[1..] + [ev];
    }
  }

  /** The middleware's surroundings: the context, the wrapped handler, timers and the dead-letter
      broker. Every call logs what happened; the choices are arbitrary, except that a cancelled
      context stays cancelled with the same error. */
  class World {
    var ctxErr: Option<string>
    var trace: seq<Event>

    constructor ()
      ensures trace == [] && ctxErr == None
    {
      ctxErr, trace := None, [];
    }

    method CtxErr() returns (err: Option<string>)
      modifies this
      ensures err == ctxErr && trace == old(trace) + [CtxCheck(err)]
      ensures old(ctxErr).Some? ==> ctxErr == old(ctxErr)
    {
      var now: Option<string> := *;
      if ctxErr.None? {
        ctxErr := now;
      }
      err := ctxErr;
      trace := trace + [CtxCheck(err)];
    }

    method Next() returns (outcome: Outcome)
      modifies this`trace
      ensures trace == old(trace) + [Attempt(outcome)]
    {
      outcome := *;
      trace := trace + [Attempt(outcome)];
    }

    /** The select over the context and the timer. */
    method SleepFor(delay: int) returns (interrupted: Option<string>)
      modifies this
      ensures trace == old(trace) + [Sleep(delay, interrupted)]
      ensures interrupted.Some? ==> ctxErr == interrupted
      ensures old(ctxErr).Some? ==> ctxErr == old(ctxErr)
    {
      var now: Option<string>, timerWins: bool := *, *;
      if ctxErr.None? {
        ctxErr := now;
      }
      interrupted := if timerWins then None else ctxErr;
      trace := trace + [Sleep(delay, interrupted)];
    }

    method PublishDlq(topic: string, letter: Message) returns (refused: Option<string>)
      modifies this`trace
      ensures trace == old(trace) + [DlqPublish(topic, letter, refused)]
    {
      refused := *;
      trace := trace + [DlqPublish(topic, letter, refused)];
    }
  }

  /** The header map of the dead letter is filled entry by entry; the incoming one is only read. */
  method CopyHeaders(header: map<string, string>) returns (headers: map<string, string>)
    ensures headers == header
  {
    headers := map[];
    var rest := header.Keys;
    while rest != {}
      invariant rest <= header.Keys
      invariant headers == map k | k in header && k !in rest :: header[k]
      decreases rest
    {
      var key :| key in rest;
      headers := headers[key := header[key]];
      rest := rest - {key};
    }
  }

  /** The handler that `NewSubscriberWrapper` returns, for options whose backoff settings are `p`.
      `panicked` stands for a panic leaving it. */
  method HandleWithRetry(o: Options, p: Backoff.Policy, m: Incoming, w: World)
    returns (err: Option<string>, panicked: bool)
    requires w.trace == [] && Follows(o, p)
    modifies w
    ensures Run(o, m, w.trace, if panicked then Panicked else Returned(err))
    ensures old(w.ctxErr).Some? ==>
              w.trace <= [CtxCheck(old(w.ctxErr))] && (o.maxRetries >= 0 ==> err == old(w.ctxErr))
  {
    panicked := false;
    var lastErr: Option<string> := None;
    var attempt := 0;
    while attempt <= o.maxRetries
      invariant 0 <= attempt
      invariant attempt <= o.maxRetries ==> Run(o, m, w.trace, Looping(attempt))
      invariant attempt > o.maxRetries ==> Run(o, m, w.trace, Exhausted(o, lastErr))
      invariant old(w.ctxErr).Some? ==> w.ctxErr == old(w.ctxErr) && w.trace == [] && attempt == 0
    {
      ghost var t0 := w.trace;
      var ctxErr := w.CtxErr();
      ExecAppends(o, m, Start(o), t0, Looping(attempt), CtxCheck(ctxErr));
      if ctxErr.Some? {
        return ctxErr, false;
      }
      ghost var t1 := w.trace;
      var outcome := w.Next();
      ExecAppends(o, m, Start(o), t1, Calling(attempt), Attempt(outcome));
      if outcome.Panic? {
        return None, true;
      }
      if outcome.Ok? {
        return None, false;
      }
      lastErr := Some(outcome.reason);
      if attempt == o.maxRetries {
        break;
      }
      var backoff := ScheduledDelay(o, p, attempt);
      ghost var t2 := w.trace;
      var interrupted := w.SleepFor(backoff);
      ExecAppends(o, m, Start(o), t2, Sleeping(attempt), Sleep(backoff, interrupted));
      if interrupted.Some? {
        return interrupted, false;
      }
      attempt := attempt + 1;
    }
    if o.dlqTopic != "" && o.hasDlqBroker {
      ghost var t3 := w.trace;
      var ctxErr := w.CtxErr();
      ExecAppends(o, m, Start(o), t3, DlqCheck(lastErr), CtxCheck(ctxErr));
      if ctxErr.Some? {
        return ctxErr, false;
      }
      var headers := CopyHeaders(m.message.header);
      headers := headers["X-Original-Topic" := m.topic];
      if lastErr.None? {
        return None, true;
      }
      headers := headers["X-Last-Error" := lastErr.value];
      ghost var t4 := w.trace;
      var refused := w.PublishDlq(o.dlqTopic, Message(headers, m.message.body));
      ExecAppends(o, m, Start(o), t4, DlqSend(lastErr.value),
                  DlqPublish(o.dlqTopic, Message(headers, m.message.body), refused));
      if refused.Some? {
        return Some(Join(o, lastErr.value, refused.value)), false;
      }
      return None, false;
    }
    return lastErr, false;
  }
}
