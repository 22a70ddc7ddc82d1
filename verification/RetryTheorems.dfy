/** What every run of the retry middleware satisfies. */
module RetryTheorems {
  import opened Prelude
  import opened Retry

  // ---- The language of traces ----

  function Round(o: Options, attempt: nat, reason: string): seq<Event> {
    [CtxCheck(None), Attempt(Failed(reason)), Sleep(DelayAfter(o, attempt), None)]
  }

  /** One full (fail, sleep) round per reason, starting with attempt number `first`. */
  function Rounds(o: Options, first: nat, reasons: seq<string>): seq<Event>
    decreases |reasons|
  {
    if reasons == [] then [] else Round(o, first, reasons[0]) + Rounds(o, first + 1, reasons[1..])
  }

  /** How a call can end after its complete rounds. */
  datatype Ending =
    | CancelledAtTop(err: string)
    | Succeeded
    | PanickedInHandler
    | CancelledAsleep(reason: string, err: string)
    | GaveUp(reason: string)
    | CancelledBeforeDlq(reason: string, err: string)
    | DeadLettered(reason: string)
    | DlqRefused(reason: string, publishError: string)

  function Tail(o: Options, m: Incoming, last: nat, e: Ending): seq<Event> {
    match e
    case CancelledAtTop(err) => [CtxCheck(Some(err))]
    case Succeeded => [CtxCheck(None), Attempt(Ok)]
    case PanickedInHandler => [CtxCheck(None), Attempt(Panic)]
    case CancelledAsleep(reason, err) =>
      [CtxCheck(None), Attempt(Failed(reason)), Sleep(DelayAfter(o, last), Some(err))]
    case GaveUp(reason) => [CtxCheck(None), Attempt(Failed(reason))]
    case CancelledBeforeDlq(reason, err) => [CtxCheck(None), Attempt(Failed(reason)), CtxCheck(Some(err))]
    case DeadLettered(reason) =>
      [CtxCheck(None), Attempt(Failed(reason)), CtxCheck(None), DlqPublish(o.dlqTopic, DeadLetter(m, reason), None)]
    case DlqRefused(reason, pe) =>
      [CtxCheck(None), Attempt(Failed(reason)), CtxCheck(None), DlqPublish(o.dlqTopic, DeadLetter(m, reason), Some(pe))]
  }

  function Verdict(o: Options, e: Ending): Pc {
    match e
    case CancelledAtTop(err) => Returned(Some(err))
    case Succeeded => Returned(None)
    case PanickedInHandler => Panicked
    case CancelledAsleep(_, err) => Returned(Some(err))
    case GaveUp(reason) => Returned(Some(reason))
    case CancelledBeforeDlq(_, err) => Returned(Some(err))
    case DeadLettered(_) => Returned(None)
    case DlqRefused(reason, pe) => Returned(Some(Join(o, reason, pe)))
  }

  /** An ending is legal after `last` complete rounds: exhaustion needs the last attempt, and the
      dead-letter branch is taken exactly when it is configured. */
  predicate Legal(o: Options, last: nat, e: Ending) {
    && last <= o.maxRetries
    && (e.CancelledAsleep? ==> last < o.maxRetries)
    && (e.GaveUp? ==> last == o.maxRetries && (o.dlqTopic == "" || !o.hasDlqBroker))
    && (e.CancelledBeforeDlq? || e.DeadLettered? || e.DlqRefused? ==>
          last == o.maxRetries && o.dlqTopic != "" && o.hasDlqBroker)
  }

  predicate Ended(pc: Pc) {
    pc.Returned? || pc.Panicked?
  }

  lemma {:induction false} EndedIsFinal(o: Options, m: Incoming, pc: Pc, t: seq<Event>)
    requires Ended(pc) && Exec(o, m, pc, t).Some?
    ensures t == []
  {
  }

  lemma SplitsOff(o: Options, m: Incoming, pc: Pc, t: seq<Event>)
    requires !Ended(pc) && Exec(o, m, pc, t).Some? && Ended(Exec(o, m, pc, t).value)
    ensures t != [] && t == [t[0]] + t[1..] && Step(o, m, pc, t[0]).Some?
    ensures Exec(o, m, Step(o, m, pc, t[0]).value, t[1..]) == Exec(o, m, pc, t)
  {
  }

  /** The end of a call that has just run out of retries. */
  lemma {:induction false} ParseExhausted(o: Options, m: Incoming, reason: string, t: seq<Event>) returns (e: Ending)
    requires 0 <= o.maxRetries
    requires Exec(o, m, Exhausted(o, Some(reason)), t).Some? && Ended(Exec(o, m, Exhausted(o, Some(reason)), t).value)
    ensures Legal(o, o.maxRetries, e) && Exec(o, m, Exhausted(o, Some(reason)), t) == Some(Verdict(o, e))
    ensures [CtxCheck(None), Attempt(Failed(reason))] + t == Tail(o, m, o.maxRetries, e)
  {
    if !HasDlq(o) {
      EndedIsFinal(o, m, Returned(Some(reason)), t);
      e := GaveUp(reason);
      return;
    }
    SplitsOff(o, m, DlqCheck(Some(reason)), t);
    if t[0].cancelled.Some? {
      EndedIsFinal(o, m, Returned(t[0].cancelled), t[1..]);
      e := CancelledBeforeDlq(reason, t[0].cancelled.value);
      return;
    }
    var u := t[1..];
    SplitsOff(o, m, DlqSend(reason), u);
    EndedIsFinal(o, m, Step(o, m, DlqSend(reason), u[0]).value, u[1..]);
    assert t == [CtxCheck(None), u[0]];
    e := if u[0].refused.Some? then DlqRefused(reason, u[0].refused.value) else DeadLettered(reason);
  }

  /** Every completed trace is some rounds followed by one legal ending ... */
  lemma {:induction false} Parse(o: Options, m: Incoming, first: nat, t: seq<Event>)
    returns (reasons: seq<string>, e: Ending)
    requires first <= o.maxRetries
    requires Exec(o, m, Looping(first), t).Some? && Ended(Exec(o, m, Looping(first), t).value)
    ensures Legal(o, first + |reasons|, e)
    ensures t == Rounds(o, first, reasons) + Tail(o, m, first + |reasons|, e)
    ensures Exec(o, m, Looping(first), t) == Some(Verdict(o, e))
    decreases |t|
  {
    reasons := [];
    SplitsOff(o, m, Looping(first), t);
    if t[0].cancelled.Some? {
      EndedIsFinal(o, m, Returned(t[0].cancelled), t[1..]);
      e := CancelledAtTop(t[0].cancelled.value);
      return;
    }
    var u := t[1..];
    assert t == [CtxCheck(None)] + u;
    reasons, e := ParseAttempt(o, m, first, u);
  }

  lemma {:induction false} ParseAttempt(o: Options, m: Incoming, first: nat, u: seq<Event>)
    returns (reasons: seq<string>, e: Ending)
    requires first <= o.maxRetries
    requires Exec(o, m, Calling(first), u).Some? && Ended(Exec(o, m, Calling(first), u).value)
    ensures Legal(o, first + |reasons|, e)
    ensures [CtxCheck(None)] + u == Rounds(o, first, reasons) + Tail(o, m, first + |reasons|, e)
    ensures Exec(o, m, Calling(first), u) == Some(Verdict(o, e))
    decreases |u|
  {
    reasons := [];
    SplitsOff(o, m, Calling(first), u);
    var v := u[1..];
    match u[0].outcome
    case Ok =>
      EndedIsFinal(o, m, Returned(None), v);
      e := Succeeded;
    case Panic =>
      EndedIsFinal(o, m, Panicked, v);
      e := PanickedInHandler;
    case Failed(reason) =>
      if first == o.maxRetries {
        e := ParseExhausted(o, m, reason, v);
        assert [CtxCheck(None)] + u == [CtxCheck(None), Attempt(Failed(reason))] + v;
      } else {
        reasons, e := ParseSleep(o, m, first, reason, v);
        assert [CtxCheck(None)] + u == [CtxCheck(None), Attempt(Failed(reason))] + v;
      }
  }

  lemma {:induction false} ParseSleep(o: Options, m: Incoming, first: nat, reason: string, v: seq<Event>)
    returns (reasons: seq<string>, e: Ending)
    requires first < o.maxRetries
    requires Exec(o, m, Sleeping(first), v).Some? && Ended(Exec(o, m, Sleeping(first), v).value)
    ensures Legal(o, first + |reasons|, e)
    ensures [CtxCheck(None), Attempt(Failed(reason))] + v
         == Rounds(o, first, reasons) + Tail(o, m, first + |reasons|, e)
    ensures Exec(o, m, Sleeping(first), v) == Some(Verdict(o, e))
    decreases |v|
  {
    reasons := [];
    SplitsOff(o, m, Sleeping(first), v);
    var w := v[1..];
    if v[0].interrupted.Some? {
      EndedIsFinal(o, m, Returned(v[0].interrupted), w);
      e := CancelledAsleep(reason, v[0].interrupted.value);
    } else {
      var rest;
      rest, e := Parse(o, m, first + 1, w);
      reasons := [reason] + rest;
      assert reasons[1..] == rest;
      assert first + |reasons| == first + 1 + |rest|;
      assert [CtxCheck(None), Attempt(Failed(reason))] + v == Round(o, first, reason) + w;
      Reassociate(Round(o, first, reason), Rounds(o, first + 1, rest), Tail(o, m, first + |reasons|, e));
    }
  }

  lemma Reassociate(a: seq<Event>, b: seq<Event>, c: seq<Event>)
    ensures a + (b + c) == a + b + c
  {
  }

  lemma ExecConcat(o: Options, m: Incoming, pc: Pc, a: seq<Event>, b: seq<Event>)
    requires Exec(o, m, pc, a).Some?
    ensures Exec(o, m, pc, a + b) == Exec(o, m, Exec(o, m, pc, a).value, b)
    decreases |a|
  {
    if a == [] {
      assert a + b == b;
    } else {
      assert (a + b)[1..] == a[1..] + b;
      ExecConcat(o, m, Step(o, m, pc, a[0]).value, a[1..], b);
    }
  }

  lemma ExecShort(o: Options, m: Incoming, pc: Pc, a: Event, b: seq<Event>)
    ensures Exec(o, m, pc, [a] + b) ==
            match Step(o, m, pc, a) case None => None case Some(next) => Exec(o, m, next, b)
  {
    assert ([a] + b)[1..] == b;
  }

  lemma {:induction false} TailRuns(o: Options, m: Incoming, last: nat, e: Ending)
    requires Legal(o, last, e)
    ensures Exec(o, m, Looping(last), Tail(o, m, last, e)) == Some(Verdict(o, e))
  {
    var t := Tail(o, m, last, e);
    ExecShort(o, m, Looping(last), t[0], t[1..]);
    assert t == [t[0]] + t[1..];
    if |t| > 1 {
      var u := t[1..];
      ExecShort(o, m, Calling(last), u[0], u[1..]);
      assert u == [u[0]] + u[1..];
      if |u| > 1 {
        var v := u[1..];
        var pc := Step(o, m, Calling(last), u[0]).value;
        ExecShort(o, m, pc, v[0], v[1..]);
        assert v == [v[0]] + v[1..];
        if |v| > 1 {
          var w := v[1..];
          ExecShort(o, m, Step(o, m, pc, v[0]).value, w[0], w[1..]);
          assert w == [w[0]] + w[1..];
        }
      }
    }
  }

  /** ... and every such word is a trace the middleware can produce. */
  lemma {:induction false} Produce(o: Options, m: Incoming, first: nat, reasons: seq<string>, e: Ending)
    requires Legal(o, first + |reasons|, e)
    ensures Exec(o, m, Looping(first), Rounds(o, first, reasons) + Tail(o, m, first + |reasons|, e))
         == Some(Verdict(o, e))
    decreases |reasons|
  {
    var tail := Tail(o, m, first + |reasons|, e);
    if reasons == [] {
      TailRuns(o, m, first, e);
      assert Rounds(o, first, reasons) + tail == tail;
    } else {
      var round := Round(o, first, reasons[0]);
      var rest := Rounds(o, first + 1, reasons[1..]) + tail;
      Produce(o, m, first + 1, reasons[1..], e);
      RoundRuns(o, m, first, reasons[0]);
      ExecConcat(o, m, Looping(first), round, rest);
      assert Rounds(o, first, reasons) + tail == round + rest;
    }
  }

  lemma RoundRuns(o: Options, m: Incoming, attempt: nat, reason: string)
    requires attempt < o.maxRetries
    ensures Exec(o, m, Looping(attempt), Round(o, attempt, reason)) == Some(Looping(attempt + 1))
  {
    var t := Round(o, attempt, reason);
    ExecShort(o, m, Looping(attempt), t[0], t[1..]);
    ExecShort(o, m, Calling(attempt), t[1], t[2..]);
    ExecShort(o, m, Sleeping(attempt), t[2], []);
    assert t == [t[0]] + t[1..] && t[1..] == [t[1]] + t[2..] && t[2..] == [t[2]] + [];
  }

  ghost predicate IsWord(o: Options, m: Incoming, trace: seq<Event>, pc: Pc) {
    exists reasons: seq<string>, e: Ending ::
      && Legal(o, |reasons|, e)
      && trace == Rounds(o, 0, reasons) + Tail(o, m, |reasons|, e)
      && pc == Verdict(o, e)
  }

  lemma IsWordIff(o: Options, m: Incoming, trace: seq<Event>, pc: Pc)
    requires o.maxRetries >= 0 && Ended(pc)
    ensures Run(o, m, trace, pc) <==> IsWord(o, m, trace, pc)
  {
    if Run(o, m, trace, pc) {
      var reasons, e := Parse(o, m, 0, trace);
    }
    if IsWord(o, m, trace, pc) {
      var reasons: seq<string>, e: Ending :|
        && Legal(o, |reasons|, e)
        && trace == Rounds(o, 0, reasons) + Tail(o, m, |reasons|, e)
        && pc == Verdict(o, e);
      Produce(o, m, 0, reasons, e);
    }
  }

  /** What a negative limit leaves: nothing at all without a dead-letter queue, and with one the
      context check, then its error or a panic on the nil error. */
  predicate IsEmptyLoop(o: Options, trace: seq<Event>, pc: Pc) {
    if o.dlqTopic == "" || !o.hasDlqBroker then trace == [] && pc == Returned(None)
    else
      && |trace| == 1 && trace[0].CtxCheck?
      && pc == if trace[0].cancelled.Some? then Returned(trace[0].cancelled) else Panicked
  }

  lemma IsEmptyLoopIff(o: Options, m: Incoming, trace: seq<Event>, pc: Pc)
    requires o.maxRetries < 0 && Ended(pc)
    ensures Run(o, m, trace, pc) <==> IsEmptyLoop(o, trace, pc)
  {
    if trace != [] && Step(o, m, Start(o), trace[0]).Some? {
      var next := Step(o, m, Start(o), trace[0]).value;
      assert Ended(next);
      if Exec(o, m, next, trace[1..]).Some? {
        EndedIsFinal(o, m, next, trace[1..]);
      }
    }
  }

  /** Main result: the completed traces are exactly the words (fail, sleep)* followed by success,
      cancellation, panic, or a final failure with its optional dead-letter hand-off, and the ending
      fixes the result. A negative limit leaves an empty loop. */
  lemma TraceLanguage(o: Options, m: Incoming, trace: seq<Event>, pc: Pc)
    requires Ended(pc)
    ensures Run(o, m, trace, pc) <==>
            if o.maxRetries >= 0 then IsWord(o, m, trace, pc) else IsEmptyLoop(o, trace, pc)
  {
    if o.maxRetries >= 0 {
      IsWordIff(o, m, trace, pc);
    } else {
      IsEmptyLoopIff(o, m, trace, pc);
    }
  }

  // ---- Counting calls and sleep ----

  function Calls(trace: seq<Event>): nat {
    if trace == [] then 0 else (if trace[0].Attempt? then 1 else 0) + Calls(trace[1..])
  }

  function Slept(trace: seq<Event>): nat {
    if trace == [] then 0 else (if trace[0].Sleep? then Max(0, trace[0].delay) else 0) + Slept(trace[1..])
  }

  /** Calls still possible from `pc`. */
  function CallsLeft(o: Options, pc: Pc): int {
    match pc
    case Looping(a) => o.maxRetries + 1 - a
    case Calling(a) => o.maxRetries + 1 - a
    case Sleeping(a) => o.maxRetries - a
    case _ => 0
  }

  predicate WithinLimit(o: Options, pc: Pc) {
    match pc
    case Looping(a) => a <= o.maxRetries
    case Calling(a) => a <= o.maxRetries
    case Sleeping(a) => a < o.maxRetries
    case _ => true
  }

  lemma {:induction false} CallsBoundedFrom(o: Options, m: Incoming, pc: Pc, trace: seq<Event>)
    requires WithinLimit(o, pc) && Exec(o, m, pc, trace).Some?
    ensures WithinLimit(o, Exec(o, m, pc, trace).value)
    ensures Calls(trace) + CallsLeft(o, Exec(o, m, pc, trace).value) <= CallsLeft(o, pc)
    decreases |trace|
  {
    if trace == [] {
    } else {
      CallsBoundedFrom(o, m, Step(o, m, pc, trace[0]).value, trace[1..]);
    }
  }

  /** The wrapped handler is called at most `maxRetries + 1` times, and never when that is
      negative. Holds of unfinished traces too. */
  lemma CallsBounded(o: Options, m: Incoming, trace: seq<Event>, pc: Pc)
    requires Run(o, m, trace, pc)
    ensures Calls(trace) <= Max(0, o.maxRetries + 1)
  {
    CallsBoundedFrom(o, m, Start(o), trace);
  }

  /** Sleeps still possible from `pc`: at most one per attempt but the last. */
  function SleepsLeft(o: Options, pc: Pc): int {
    match pc
    case Looping(a) => o.maxRetries - a
    case Calling(a) => o.maxRetries - a
    case Sleeping(a) => o.maxRetries - a
    case _ => 0
  }

  lemma {:induction false} SleepBoundedFrom(o: Options, m: Incoming, pc: Pc, trace: seq<Event>)
    requires o.backoff.cap >= 0 && WithinLimit(o, pc) && Exec(o, m, pc, trace).Some?
    ensures WithinLimit(o, Exec(o, m, pc, trace).value)
    ensures Slept(trace) + SleepsLeft(o, Exec(o, m, pc, trace).value) * o.backoff.cap
         <= SleepsLeft(o, pc) * o.backoff.cap
    decreases |trace|
  {
    if trace == [] {
    } else {
      var next := Step(o, m, pc, trace[0]).value;
      SleepBoundedFrom(o, m, next, trace[1..]);
      var cost := if trace[0].Sleep? then 1 else 0;
      Scale(SleepsLeft(o, next), SleepsLeft(o, pc) - cost, o.backoff.cap);
    }
  }

  /** A whole call sleeps at most `maxRetries` times the cap, whatever the conversion of an
      oversized product yields. */
  lemma SleepBounded(o: Options, m: Incoming, trace: seq<Event>, pc: Pc)
    requires Run(o, m, trace, pc) && o.backoff.cap >= 0 && o.maxRetries >= 0
    ensures Slept(trace) <= o.maxRetries * o.backoff.cap
  {
    SleepBoundedFrom(o, m, Start(o), trace);
    Scale(0, SleepsLeft(o, pc), o.backoff.cap);
  }

  // ---- What a nil result means ----

  /** Some attempt succeeded, or the dead-letter broker accepted a copy. */
  predicate Evidence(trace: seq<Event>) {
    exists i :: 0 <= i < |trace| && Settles(trace[i])
  }

  predicate Settles(ev: Event) {
    ev == Attempt(Ok) || (ev.DlqPublish? && ev.refused.None?)
  }

  /** A nil result cannot come from a loop that never ran. */
  predicate Sound(o: Options) {
    o.maxRetries >= 0 || (o.dlqTopic != "" && o.hasDlqBroker)
  }

  lemma {:induction false} SettledFrom(o: Options, m: Incoming, pc: Pc, trace: seq<Event>)
    requires pc != Returned(None) && Exec(o, m, pc, trace).Some?
    ensures Exec(o, m, pc, trace) == Some(Returned(None)) <==> Evidence(trace)
    decreases |trace|
  {
    if trace == [] {
    } else {
      var next := Step(o, m, pc, trace[0]).value;
      if next == Returned(None) {
        EndedIsFinal(o, m, next, trace[1..]);
      } else {
        assert !Settles(trace[0]);
        SettledFrom(o, m, next, trace[1..]);
        if Evidence(trace[1..]) {
          var i :| 0 <= i < |trace[1..]| && Settles(trace[1..][i]);
          assert Settles(trace[i + 1]);
        }
        if Evidence(trace) {
          var i :| 0 <= i < |trace| && Settles(trace[i]);
          assert Settles(trace[1..][i - 1]);
        }
      }
    }
  }

  /** The middleware reports success exactly when an attempt succeeded or the dead letter was
      accepted ... */
  lemma NilMeansSettled(o: Options, m: Incoming, trace: seq<Event>, pc: Pc)
    requires Sound(o) && Run(o, m, trace, pc)
    ensures pc == Returned(None) <==> Evidence(trace)
  {
    SettledFrom(o, m, Start(o), trace);
  }

  /** ... for exactly those options: a negative retry limit without a dead-letter queue reports
      success without calling anyone. */
  lemma NilMeansSettledIffSound(o: Options, m: Incoming)
    ensures (forall trace, pc | Run(o, m, trace, pc) :: (pc == Returned(None) <==> Evidence(trace))) <==> Sound(o)
  {
    if Sound(o) {
      forall trace, pc | Run(o, m, trace, pc)
        ensures pc == Returned(None) <==> Evidence(trace)
      {
        NilMeansSettled(o, m, trace, pc);
      }
    } else {
      assert Run(o, m, [], Returned(None)) && !Evidence([]);
    }
  }

  // ---- Cancellation and the dead letter ----

  predicate SeesCancel(ev: Event) {
    (ev.CtxCheck? && ev.cancelled.Some?) || (ev.Sleep? && ev.interrupted.Some?)
  }

  lemma {:induction false} CancelEndsFrom(o: Options, m: Incoming, pc: Pc, trace: seq<Event>, i: nat)
    requires Exec(o, m, pc, trace).Some? && i < |trace| && SeesCancel(trace[i])
    ensures i == |trace| - 1
    ensures exists err: string :: Exec(o, m, pc, trace) == Some(Returned(Some(err)))
    decreases |trace|
  {
    var next := Step(o, m, pc, trace[0]).value;
    if i == 0 {
      EndedIsFinal(o, m, next, trace[1..]);
    } else {
      CancelEndsFrom(o, m, next, trace[1..], i - 1);
    }
  }

  /** A cancellation that the middleware sees, at a check or in its sleep, is the last thing that
      happens: it returns an error, and no dead letter is ever sent in that run. */
  lemma CancelMeansNoDlq(o: Options, m: Incoming, trace: seq<Event>, pc: Pc, i: nat)
    requires Run(o, m, trace, pc) && i < |trace| && SeesCancel(trace[i])
    ensures pc.Returned? && pc.err.Some?
    ensures forall j | 0 <= j < |trace| :: !trace[j].DlqPublish?
  {
    CancelEndsFrom(o, m, Start(o), trace, i);
    forall j | 0 <= j < |trace|
      ensures !trace[j].DlqPublish?
    {
      if trace[j].DlqPublish? {
        PublishIsLast(o, m, Start(o), trace, j);
        assert false;
      }
    }
  }

  lemma {:induction false} PublishIsLast(o: Options, m: Incoming, pc: Pc, trace: seq<Event>, j: nat)
    requires Exec(o, m, pc, trace).Some? && j < |trace| && trace[j].DlqPublish?
    ensures j == |trace| - 1
    decreases |trace|
  {
    var next := Step(o, m, pc, trace[0]).value;
    if j == 0 {
      EndedIsFinal(o, m, next, trace[1..]);
    } else {
      PublishIsLast(o, m, next, trace[1..], j - 1);
    }
  }

  lemma {:induction false} PublishFollowsFailure(o: Options, m: Incoming, pc: Pc, trace: seq<Event>, i: nat)
    requires (pc.Looping? || pc.Calling? || pc.Sleeping?)
    requires Exec(o, m, pc, trace).Some? && i < |trace| && trace[i].DlqPublish?
    ensures i >= 2 && trace[i - 2].Attempt? && trace[i - 2].outcome.Failed?
    ensures trace[i].letter == DeadLetter(m, trace[i - 2].outcome.reason)
    decreases |trace|
  {
    var next := Step(o, m, pc, trace[0]).value;
    if next.DlqCheck? {
      var u := trace[1..];
      var after := Step(o, m, next, u[0]).value;
      assert u[0] == trace[1];
      assert i != 0 && i != 1;
      if Ended(after) {
        EndedIsFinal(o, m, after, u[1..]);
      } else {
        var w := u[1..];
        assert Exec(o, m, after, w).Some? && w[0] == trace[2];
        EndedIsFinal(o, m, Step(o, m, after, w[0]).value, w[1..]);
      }
    } else if Ended(next) {
      EndedIsFinal(o, m, next, trace[1..]);
    } else {
      PublishFollowsFailure(o, m, next, trace[1..], i - 1);
    }
  }

  lemma PublishNeedsLoop(o: Options, m: Incoming, trace: seq<Event>, i: nat)
    requires Exec(o, m, Start(o), trace).Some? && i < |trace| && trace[i].DlqPublish?
    ensures o.maxRetries >= 0
  {
    if o.maxRetries < 0 {
      EndedIsFinal(o, m, Step(o, m, Start(o), trace[0]).value, trace[1..]);
      assert false;
    }
  }

  /** A published dead letter keeps the body and every header of the original other than the two
      it sets, which name the original topic and the error of the attempt that failed last. */
  lemma DeadLetterContents(o: Options, m: Incoming, trace: seq<Event>, pc: Pc, i: nat)
    requires Run(o, m, trace, pc) && i < |trace| && trace[i].DlqPublish?
    ensures trace[i].letter.body == m.message.body
    ensures trace[i].letter.header.Keys == m.message.header.Keys + {"X-Original-Topic", "X-Last-Error"}
    ensures trace[i].letter.header["X-Original-Topic"] == m.topic
    ensures i >= 2 && trace[i - 2] == Attempt(Failed(trace[i].letter.header["X-Last-Error"]))
    ensures forall k | k in m.message.header && k !in {"X-Original-Topic", "X-Last-Error"} ::
              trace[i].letter.header[k] == m.message.header[k]
  {
    PublishNeedsLoop(o, m, trace, i);
    PublishFollowsFailure(o, m, Start(o), trace, i);
    assert "X-Original-Topic"[2] != "X-Last-Error"[2];
  }

  // ---- Exhaustion ----

  lemma {:induction false} ReachesExhaustion(o: Options, m: Incoming, pc: Pc, trace: seq<Event>, i: nat, reason: string)
    requires Exec(o, m, pc, trace).Some? && i < |trace| && trace[i] == Attempt(Failed(reason))
    requires match pc
             case Looping(a) => a + Calls(trace[..i]) == o.maxRetries
             case Calling(a) => a + Calls(trace[..i]) == o.maxRetries
             case Sleeping(a) => a + 1 + Calls(trace[..i]) == o.maxRetries
             case _ => false
    ensures Exec(o, m, pc, trace) == Exec(o, m, Exhausted(o, Some(reason)), trace[i + 1..])
    ensures forall j | 0 <= j <= i :: !trace[j].DlqPublish?
    decreases |trace|
  {
    if i == 0 {
      assert trace[..0] == [];
    } else {
      var next := Step(o, m, pc, trace[0]).value;
      assert trace[..i][0] == trace[0] && trace[..i][1..] == trace[1..][..i - 1];
      if Ended(next) {
        EndedIsFinal(o, m, next, trace[1..]);
      } else {
        ReachesExhaustion(o, m, next, trace[1..], i - 1, reason);
        assert trace[1..][i..] == trace[i + 1..];
      }
    }
  }

  /** What follows the last failure when no cancellation is seen. */
  lemma AfterExhaustion(o: Options, m: Incoming, reason: string, rest: seq<Event>, pc: Pc)
    requires Exec(o, m, Exhausted(o, Some(reason)), rest) == Some(pc) && Ended(pc)
    requires forall j | 0 <= j < |rest| :: !SeesCancel(rest[j])
    ensures if o.dlqTopic != "" && o.hasDlqBroker then |rest| == 2 && rest[0] == CtxCheck(None) && rest[1].DlqPublish?
            else rest == [] && pc == Returned(Some(reason))
    ensures |rest| == 2 ==>
              && rest[1].topic == o.dlqTopic
              && pc == if rest[1].refused.None? then Returned(None)
                       else Returned(Some(reason + "\n"
                                          + "publish to DLQ " + o.dlqTopic + ": " + rest[1].refused.value))
  {
    if o.dlqTopic != "" && o.hasDlqBroker {
      SplitsOff(o, m, DlqCheck(Some(reason)), rest);
      assert !SeesCancel(rest[0]);
      SplitsOff(o, m, DlqSend(reason), rest[1..]);
      EndedIsFinal(o, m, Step(o, m, DlqSend(reason), rest[1..][0]).value, rest[1..][1..]);
    } else {
      EndedIsFinal(o, m, Returned(Some(reason)), rest);
    }
  }

  predicate Publishes(trace: seq<Event>) {
    exists j :: 0 <= j < |trace| && trace[j].DlqPublish?
  }

  /** Main result. When the last attempt has failed and no cancellation is seen, the message is handed over to the
      dead-letter topic if and only if one is named and a broker for it is given. If not, the result is that
      attempt's error; if so, it is nil when the broker accepts, and else names both errors and the topic. */
  lemma ExhaustionHandsOver(o: Options, m: Incoming, trace: seq<Event>, pc: Pc, i: nat, reason: string)
    requires Run(o, m, trace, pc) && Ended(pc) && forall j | 0 <= j < |trace| :: !SeesCancel(trace[j])
    requires i < |trace| && trace[i] == Attempt(Failed(reason)) && Calls(trace[..i]) == o.maxRetries
    ensures Publishes(trace) <==> o.dlqTopic != "" && o.hasDlqBroker
    ensures !Publishes(trace) ==> pc == Returned(Some(reason))
    ensures forall j | 0 <= j < |trace| && trace[j].DlqPublish? ::
              && trace[j].topic == o.dlqTopic
              && pc == if trace[j].refused.None? then Returned(None)
                       else Returned(Some(reason + "\n"
                                          + "publish to DLQ " + o.dlqTopic + ": " + trace[j].refused.value))
  {
    ReachesExhaustion(o, m, Start(o), trace, i, reason);
    var rest := trace[i + 1..];
    assert forall j | 0 <= j < |rest| :: rest[j] == trace[i + 1 + j];
    AfterExhaustion(o, m, reason, rest, pc);
    if o.dlqTopic != "" && o.hasDlqBroker {
      assert trace[i + 2].DlqPublish?;
    }
    forall j | 0 <= j < |trace| && trace[j].DlqPublish?
      ensures j == i + 2
    {
      if j > i {
        assert rest[j - i - 1] == trace[j];
      }
    }
  }

  // ---- Nesting ----

  /** An outer trace whose attempts are each a completed run of an inner retry, in order. */
  predicate Nests(inner: Options, m: Incoming, outer: seq<Event>, runs: seq<seq<Event>>)
    decreases |outer|
  {
    if outer == [] then runs == []
    else if outer[0].Attempt? then
      && runs != []
      && Run(inner, m, runs[0], Seen(outer[0].outcome))
      && Nests(inner, m, outer[1..], runs[1..])
    else Nests(inner, m, outer[1..], runs)
  }

  /** How the inner middleware must have ended for the outer one to see `outcome`. */
  function Seen(outcome: Outcome): Pc {
    match outcome
    case Ok => Returned(None)
    case Failed(reason) => Returned(Some(reason))
    case Panic => Panicked
  }

  function AllCalls(runs: seq<seq<Event>>): nat {
    if runs == [] then 0 else Calls(runs[0]) + AllCalls(runs[1..])
  }

  lemma {:induction false} NestedCallsFrom(inner: Options, m: Incoming, outer: seq<Event>, runs: seq<seq<Event>>)
    requires inner.maxRetries >= 0 && Nests(inner, m, outer, runs)
    ensures AllCalls(runs) <= Calls(outer) * (inner.maxRetries + 1)
    decreases |outer|
  {
    if outer == [] {
    } else {
      if outer[0].Attempt? {
        CallsBounded(inner, m, runs[0], Seen(outer[0].outcome));
        NestedCallsFrom(inner, m, outer[1..], runs[1..]);
        Scale(0, Calls(outer[1..]), inner.maxRetries + 1);
      } else {
        NestedCallsFrom(inner, m, outer[1..], runs);
      }
    }
  }

  /** A retry of `n` around a retry of `k` calls the handler at most `(n + 1) * (k + 1)` times. */
  lemma NestedCallsBounded(outer: Options, inner: Options, m: Incoming, trace: seq<Event>, pc: Pc,
                           runs: seq<seq<Event>>)
    requires outer.maxRetries >= 0 && inner.maxRetries >= 0
    requires Run(outer, m, trace, pc) && Nests(inner, m, trace, runs)
    ensures AllCalls(runs) <= (outer.maxRetries + 1) * (inner.maxRetries + 1)
  {
    CallsBounded(outer, m, trace, pc);
    NestedCallsFrom(inner, m, trace, runs);
    Scale(Calls(trace), outer.maxRetries + 1, inner.maxRetries + 1);
  }
}
