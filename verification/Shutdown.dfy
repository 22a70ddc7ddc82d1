/** What cancellation means for a consumer loop of the delivery protocol. */
module Shutdown {
  import opened Prelude
  import opened Streams
  import Retry
  import opened Delivery

  function Calls(l: nat, run: seq<Action>): nat {
    if run == [] then 0 else Calls(l, run[..|run| - 1]) + (if run[|run| - 1] == CallHandler(l) then 1 else 0)
  }

  /** The loop has passed the context check of a message but not yet called its handler. */
  function Committed(loop: Loop): nat {
    if loop.pc.Ready? then 1 else 0
  }

  lemma CancelledStep(cfg: Config, s: State, a: Action, l: nat)
    requires l in s.loops && s.loops[l].cancelled && Enabled(cfg, s, a)
    ensures l in Next(cfg, s, a).loops && Next(cfg, s, a).loops[l].cancelled
    ensures Committed(Next(cfg, s, a).loops[l]) + (if a == CallHandler(l) then 1 else 0) <= Committed(s.loops[l])
  {
  }

  /** Main result. After a loop's context is cancelled it calls at most one more handler, and only if
      it had already passed the check of that message. */
  lemma {:induction false} AtMostOneMoreCall(cfg: Config, s: State, run: seq<Action>, l: nat)
    requires l in s.loops && s.loops[l].cancelled && After(cfg, s, run).Some?
    ensures var t := After(cfg, s, run).value;
      && l in t.loops && t.loops[l].cancelled
      && Calls(l, run) + Committed(t.loops[l]) <= Committed(s.loops[l]) <= 1
    decreases |run|
  {
    if run == [] {
    } else {
      var n := |run| - 1;
      AtMostOneMoreCall(cfg, s, run[..n], l);
      CancelledStep(cfg, After(cfg, s, run[..n]).value, run[n], l);
    }
  }

  /** Handlers of loop `l` that returned nil with automatic acknowledgement on. */
  ghost function NilReturns(cfg: Config, s: State, run: seq<Action>, l: nat): nat
    requires After(cfg, s, run).Some?
    decreases |run|
  {
    if run == [] then 0
    else
      var mid := After(cfg, s, run[..|run| - 1]).value;
      NilReturns(cfg, s, run[..|run| - 1], l) + (if NilReturn(mid, run[|run| - 1], l) then 1 else 0)
  }

  predicate NilReturn(s: State, a: Action, l: nat) {
    a == HandlerReturns(l) && l in s.loops && s.loops[l].autoAck && s.loops[l].pc.Handling?
    && s.loops[l].pc.rpc == Retry.Returned(None)
  }

  function AckAttempts(l: nat, run: seq<Action>): nat {
    if run == [] then 0
    else AckAttempts(l, run[..|run| - 1]) + (if run[|run| - 1].AutoAck? && run[|run| - 1].l == l then 1 else 0)
  }

  function Owed(s: State, l: nat): nat {
    if l in s.loops && s.loops[l].pc.Acking? then 1 else 0
  }

  lemma AckStep(cfg: Config, s: State, a: Action, l: nat)
    requires Enabled(cfg, s, a) && a != Crash(l)
    ensures Owed(s, l) + (if NilReturn(s, a, l) then 1 else 0)
         == Owed(Next(cfg, s, a), l) + (if a.AutoAck? && a.l == l then 1 else 0)
  {
  }

  predicate NoCrash(l: nat, run: seq<Action>) {
    run != [] ==> NoCrash(l, run[..|run| - 1]) && run[|run| - 1] != Crash(l)
  }

  /** Main result. Unless its process dies, a loop attempts the acknowledgement of every handler that
      returned nil, and has no attempt outstanding when it ends and closes `done`. */
  lemma {:induction false} NilIsAcknowledged(cfg: Config, run: seq<Action>, s: State, l: nat)
    requires After(cfg, INIT, run) == Some(s) && NoCrash(l, run)
    ensures NilReturns(cfg, INIT, run, l) == AckAttempts(l, run) + Owed(s, l)
    ensures At(s, l, Exited) ==> NilReturns(cfg, INIT, run, l) == AckAttempts(l, run)
    decreases |run|
  {
    if run == [] {
    } else {
      var n := |run| - 1;
      var mid := After(cfg, INIT, run[..n]).value;
      NilIsAcknowledged(cfg, run[..n], mid, l);
      AckStep(cfg, mid, run[n], l);
    }
  }

  // ---- What a loop is given ----

  /** The loop began with what its `Spawn` gave it. */
  predicate StartedBy(a: Action, l: nat, loop: Loop) {
    a == Spawn(l, loop.owner, loop.autoAck, loop.retry)
  }

  lemma StepKeepsGiven(cfg: Config, s: State, a: Action, l: nat)
    requires Enabled(cfg, s, a) && l in Next(cfg, s, a).loops
    ensures var loop := Next(cfg, s, a).loops[l];
      if l in s.loops
      then loop.owner == s.loops[l].owner && loop.autoAck == s.loops[l].autoAck && loop.retry == s.loops[l].retry
           && (loop.cancelled <==> s.loops[l].cancelled || a == Cancel(l))
      else StartedBy(a, l, loop) && !loop.cancelled
           && loop.pc == Top && loop.cursor == 0 && loop.nextClaim == 0 && loop.now == 0
  {
    if Mover(a) != Some(l) {
      OthersUnmoved(cfg, s, a, l);
    }
  }

  lemma NotYetStep(cfg: Config, s: State, a: Action, l: nat)
    requires Enabled(cfg, s, a) && l !in Next(cfg, s, a).loops
    ensures l !in s.loops && a != Cancel(l)
  {
    if l in s.loops {
      StepKeepsLoops(cfg, s, a, l);
    }
  }

  lemma StepKeepsLoops(cfg: Config, s: State, a: Action, l: nat)
    requires Enabled(cfg, s, a) && l in s.loops
    ensures l in Next(cfg, s, a).loops
  {
  }

  lemma {:induction false} NotYet(cfg: Config, run: seq<Action>, l: nat)
    requires After(cfg, INIT, run).Some? && l !in After(cfg, INIT, run).value.loops
    ensures Cancel(l) !in run
    decreases |run|
  {
    if run == [] {
    } else {
      var n := |run| - 1;
      NotYetStep(cfg, After(cfg, INIT, run[..n]).value, run[n], l);
      NotYet(cfg, run[..n], l);
      assert run == run[..n] + [run[n]];
    }
  }

  /** Main result. In every run a loop has the owner, the acknowledgement mode and the retry options that its `Spawn`
      gave it, and it is cancelled exactly if the run cancelled it. */
  lemma {:induction false} LoopIsAsSpawned(cfg: Config, run: seq<Action>, s: State, l: nat)
    requires After(cfg, INIT, run) == Some(s) && l in s.loops
    ensures Spawn(l, s.loops[l].owner, s.loops[l].autoAck, s.loops[l].retry) in run
    ensures s.loops[l].cancelled <==> Cancel(l) in run
    decreases |run|
  {
    if run == [] {
    } else {
      var n := |run| - 1;
      var mid := After(cfg, INIT, run[..n]).value;
      assert run == run[..n] + [run[n]];
      StepKeepsGiven(cfg, mid, run[n], l);
      if l in mid.loops {
        LoopIsAsSpawned(cfg, run[..n], mid, l);
      } else {
        NotYet(cfg, run[..n], l);
      }
    }
  }

  /** Only a loop with automatic acknowledging is about to acknowledge. */
  ghost predicate AcksAutomatically(s: State, l: nat) {
    l in s.loops && s.loops[l].pc.Acking? ==> s.loops[l].autoAck
  }

  lemma StepKeepsAutomatic(cfg: Config, s: State, a: Action, l: nat)
    requires AcksAutomatically(s, l) && Enabled(cfg, s, a)
    ensures AcksAutomatically(Next(cfg, s, a), l)
    ensures a.AutoAck? && a.l == l ==> s.loops[l].autoAck
  {
  }

  /** Main result. A loop that was spawned without automatic acknowledging never acknowledges: its handler has to. */
  lemma {:induction false} ManualNeverAcks(cfg: Config, run: seq<Action>, s: State, l: nat)
    requires After(cfg, INIT, run) == Some(s)
    ensures AcksAutomatically(s, l)
    ensures l in s.loops && !s.loops[l].autoAck ==> AckAttempts(l, run) == 0
    ensures l !in s.loops ==> AckAttempts(l, run) == 0
    decreases |run|
  {
    if run == [] {
    } else {
      var n := |run| - 1;
      var mid := After(cfg, INIT, run[..n]).value;
      ManualNeverAcks(cfg, run[..n], mid, l);
      StepKeepsAutomatic(cfg, mid, run[n], l);
      if l in s.loops {
        StepKeepsGiven(cfg, mid, run[n], l);
      }
    }
  }
}
