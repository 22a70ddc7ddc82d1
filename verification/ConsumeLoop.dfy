/** `consumeLoop` and `handleMessages` of `broker/redis/redis.go` as code, between arbitrary
    interference: whatever they do is a run of the delivery protocol, so every theorem about runs
    holds of them. */
module ConsumeLoop {
  import opened Prelude
  import opened Streams
  import Retry
  import opened Delivery
  import Fidelity
  import NoLoss
  import Spacing

  /** What others may do while loop `l` is between two of its own steps. Its clock advances and its
      context may be cancelled from outside. */
  predicate FromOutside(a: Action, l: nat) {
    Mover(a) != Some(l) || a.Cancel? || a.LocalTick?
  }

  predicate AllFromOutside(env: seq<Action>, l: nat) {
    forall k | 0 <= k < |env| :: FromOutside(env[k], l)
  }

  /** What interference can do to the loop itself. */
  predicate Later(before: Loop, after: Loop) {
    && before.now <= after.now
    && (before.cancelled ==> after.cancelled)
    && after == before.(now := after.now, cancelled := after.cancelled)
  }

  lemma {:induction false} OutsideOnlyDelays(cfg: Config, s: State, env: seq<Action>, l: nat)
    requires l in s.loops && After(cfg, s, env).Some? && AllFromOutside(env, l)
    ensures var t := After(cfg, s, env).value; l in t.loops && Later(s.loops[l], t.loops[l])
    decreases |env|
  {
    if env == [] {
    } else {
      var n := |env| - 1;
      assert forall k | 0 <= k < n :: env[k] == env[..n][k];
      OutsideOnlyDelays(cfg, s, env[..n], l);
      var mid := After(cfg, s, env[..n]).value;
      if Mover(env[n]) != Some(l) {
        OthersUnmoved(cfg, mid, env[n], l);
      }
    }
  }

  // ---- What a loop does, in order ----

  /** The commands, handler calls, acknowledgements and pauses of a loop. `Returned` tells whether the
      handler's result was nil. */
  datatype Note =
    | Scanned(ids: seq<nat>)
    | ScanError
    | Got(ids: seq<nat>)
    | GotNothing
    | ReadError
    | Paused
    | Called(id: nat)
    | Returned(id: nat, success: bool)
    | Acked(id: nat)

  ghost function NotesOf(cfg: Config, s: State, a: Action, l: nat): seq<Note>
    requires Enabled(cfg, s, a)
  {
    if Mover(a) != Some(l) then []
    else match a
         case Claim(_, _, lost) => if lost then [ScanError] else [Scanned(Handout(cfg, s, a))]
         case ClaimFailed(_) => [ScanError]
         case Read(_, lost) => if lost then [ReadError] else [Got(Handout(cfg, s, a))]
         case ReadNothing(_) => [GotNothing]
         case ReadFailed(_) => [ReadError]
         case Resume(_) => [Paused]
         case CallHandler(_) => [Called(IdAt(s.loops[l], s.loops[l].pc.i))]
         case HandlerReturns(_) =>
           [Returned(IdAt(s.loops[l], s.loops[l].pc.i), s.loops[l].pc.rpc == Retry.Returned(None))]
         case AutoAck(_, _) => [Acked(IdAt(s.loops[l], s.loops[l].pc.i))]
         case _ => []
  }

  /** The notes of loop `l` over a whole run. */
  ghost function History(cfg: Config, s: State, run: seq<Action>, l: nat): seq<Note>
    requires After(cfg, s, run).Some?
    decreases |run|
  {
    if run == [] then []
    else History(cfg, s, run[..|run| - 1], l)
         + NotesOf(cfg, After(cfg, s, run[..|run| - 1]).value, run[|run| - 1], l)
  }

  lemma HistoryAppends(cfg: Config, s: State, run: seq<Action>, a: Action, l: nat)
    requires After(cfg, s, run).Some? && Enabled(cfg, After(cfg, s, run).value, a)
    ensures After(cfg, s, run + [a]).Some?
    ensures History(cfg, s, run + [a], l) == History(cfg, s, run, l) + NotesOf(cfg, After(cfg, s, run).value, a, l)
  {
    RunAppends(cfg, s, run, a);
    assert (run + [a])[..|run|] == run;
  }

  lemma OutsideNotesNothing(cfg: Config, s: State, a: Action, l: nat)
    requires Enabled(cfg, s, a) && FromOutside(a, l)
    ensures NotesOf(cfg, s, a, l) == []
  {
  }

  lemma OutsideStepLeavesHistory(cfg: Config, s: State, run: seq<Action>, a: Action, l: nat)
    requires After(cfg, s, run + [a]).Some? && FromOutside(a, l)
    ensures After(cfg, s, run).Some? && History(cfg, s, run + [a], l) == History(cfg, s, run, l)
  {
    assert (run + [a])[..|run|] == run;
    HistoryAppends(cfg, s, run, a, l);
    OutsideNotesNothing(cfg, After(cfg, s, run).value, a, l);
  }

  lemma SplitLast(run: seq<Action>, env: seq<Action>)
    requires env != []
    ensures run + env == run + env[..|env| - 1] + [env[|env| - 1]]
  {
  }

  lemma {:induction false} OutsideLeavesHistory(cfg: Config, s: State, run: seq<Action>, env: seq<Action>, l: nat)
    requires After(cfg, s, run + env).Some? && AllFromOutside(env, l)
    ensures After(cfg, s, run).Some? && History(cfg, s, run + env, l) == History(cfg, s, run, l)
    decreases |env|
  {
    if env == [] {
      assert run + env == run;
    } else {
      var n := |env| - 1;
      var shorter := run + env[..n];
      SplitLast(run, env);
      assert FromOutside(env[n], l);
      OutsideStepLeavesHistory(cfg, s, shorter, env[n], l);
      assert forall k | 0 <= k < n :: env[k] == env[..n][k];
      OutsideLeavesHistory(cfg, s, run, env[..n], l);
    }
  }

  /** One message that was not skipped. */
  function OneMessage(id: nat, success: bool, autoAck: bool): seq<Note> {
    [Called(id), Returned(id, success)] + (if success && autoAck then [Acked(id)] else [])
  }

  /** The messages `ids`, one after the other, with the given results. */
  function Worked(ids: seq<nat>, results: seq<bool>, autoAck: bool): seq<Note>
    requires |ids| == |results|
  {
    if ids == [] then []
    else
      var n := |ids| - 1;
      Worked(ids[..n], results[..n], autoAck) + OneMessage(ids[n], results[n], autoAck)
  }

  /** A batch, or the part of it that was handled before a cancellation. */
  ghost predicate BatchWork(notes: seq<Note>, ids: seq<nat>, autoAck: bool) {
    exists results: seq<bool> :: |results| <= |ids| && notes == Worked(ids[..|results|], results, autoAck)
  }

  /** A scan, with its batch if the reply arrived. */
  ghost predicate ScanWork(notes: seq<Note>, autoAck: bool) {
    && notes != []
    && match notes[0]
       case ScanError => |notes| == 1
       case Scanned(ids) => BatchWork(notes[1..], ids, autoAck)
       case _ => false
  }

  /** A read, with its batch if it brought one. A failed read may be followed by the pause. */
  ghost predicate ReadWork(notes: seq<Note>, autoAck: bool) {
    && notes != []
    && match notes[0]
       case ReadError => notes == [ReadError] || notes == [ReadError, Paused]
       case GotNothing => |notes| == 1
       case Got(ids) => BatchWork(notes[1..], ids, autoAck)
       case _ => false
  }

  lemma BatchFollows(was: seq<Note>, first: Note, ids: seq<nat>, results: seq<bool>, autoAck: bool)
    requires first == Scanned(ids) || first == Got(ids)
    requires |results| <= |ids|
    ensures var steps := [first] + Worked(ids[..|results|], results, autoAck);
      && was + steps == was + [first] + Worked(ids[..|results|], results, autoAck)
      && if first.Scanned? then ScanWork(steps, autoAck) else ReadWork(steps, autoAck)
  {
    var work := Worked(ids[..|results|], results, autoAck);
    assert ([first] + work)[1..] == work;
    assert BatchWork(work, ids, autoAck);
  }

  function Flat(parts: seq<seq<Note>>): seq<Note> {
    if parts == [] then [] else Flat(parts[..|parts| - 1]) + parts[|parts| - 1]
  }

  /** One round of the loop: a scan if one is due, then a read; `complete` unless the loop ended
      after the scan or before it. A complete round does not end with the failure of a read: the pause
      comes after it. */
  ghost predicate RoundWork(steps: seq<Note>, autoAck: bool, complete: bool) {
    exists scan, read ::
      && steps == scan + read
      && (scan == [] || ScanWork(scan, autoAck))
      && (if read == [] then !complete else ReadWork(read, autoAck) && (complete ==> read != [ReadError]))
  }

  lemma RoundIs(was: seq<Note>, scan: seq<Note>, read: seq<Note>, autoAck: bool, complete: bool)
    requires scan == [] || ScanWork(scan, autoAck)
    requires if read == [] then !complete else ReadWork(read, autoAck) && (complete ==> read != [ReadError])
    ensures was + scan + read == was + (scan + read) && RoundWork(scan + read, autoAck, complete)
  {
  }

  /** Only the last round may be incomplete. */
  ghost predicate AllRounds(rounds: seq<seq<Note>>, autoAck: bool, stopped: bool) {
    forall k | 0 <= k < |rounds| :: RoundWork(rounds[k], autoAck, k < |rounds| - 1 || !stopped)
  }

  lemma RoundsAppend(rounds: seq<seq<Note>>, steps: seq<Note>, autoAck: bool, stopped: bool)
    requires AllRounds(rounds, autoAck, false) && RoundWork(steps, autoAck, !stopped)
    ensures AllRounds(rounds + [steps], autoAck, stopped)
  {
    var next := rounds + [steps];
    forall k | 0 <= k < |next|
      ensures RoundWork(next[k], autoAck, k < |next| - 1 || !stopped)
    {
      if k < |rounds| {
        assert next[k] == rounds[k];
        assert RoundWork(rounds[k], autoAck, k < |rounds| - 1 || !false);
      }
    }
  }

  lemma FlatAppends(was: seq<Note>, parts: seq<seq<Note>>, part: seq<Note>)
    ensures was + Flat(parts + [part]) == was + Flat(parts) + part
  {
    assert (parts + [part])[..|parts|] == parts;
  }

  /** Owner and options of a loop do not change; its clock does not go back. */
  predicate Same(before: Loop, after: Loop) {
    && after.owner == before.owner && after.autoAck == before.autoAck && after.retry == before.retry
    && before.now <= after.now && (before.cancelled ==> after.cancelled)
  }

  /** The server, the publishers and the other loops, as one loop meets them. `run` is the history of
      protocol actions from `start`. */
  class World {
    const cfg: Config
    const l: nat
    ghost const start: State
    ghost var run: seq<Action>
    ghost var notes: seq<Note>
    var s: State

    ghost predicate Valid()
      reads this
    {
      After(cfg, start, run) == Some(s) && notes == History(cfg, start, run, l)
    }

    constructor (cfg: Config, l: nat, s: State)
      ensures Valid() && this.cfg == cfg && this.l == l && this.s == s && start == s && run == []
    {
      this.cfg, this.l, this.s, start, run, notes := cfg, l, s, s, [], [];
    }

    /** One action of the loop. */
    method Do(a: Action)
      requires Valid() && Enabled(cfg, s, a)
      modifies this
      ensures Valid() && s == Next(cfg, old(s), a) && run == old(run) + [a]
      ensures notes == old(notes) + NotesOf(cfg, old(s), a, l)
    {
      HistoryAppends(cfg, start, run, a, l);
      RunAppends(cfg, start, run, a);
      notes := notes + NotesOf(cfg, s, a, l);
      run := run + [a];
      s := Next(cfg, s, a);
    }

    /** Any number of steps of anyone else; the body stands for the choice. What a caller learns
        about its own loop holds of every such interval, by `OutsideOnlyDelays`. */
    method Interfere() returns (ghost env: seq<Action>)
      requires Valid()
      modifies this
      ensures Valid() && AllFromOutside(env, l) && run == old(run) + env && After(cfg, old(s), env) == Some(s)
      ensures l in old(s.loops) ==> l in s.loops && Later(old(s.loops[l]), s.loops[l])
      ensures notes == old(notes)
    {
      env := [];
      assert run + env == run;
    }

    method Wait()
      requires Valid() && l in s.loops
      modifies this
      ensures Valid() && old(run) <= run && l in s.loops && Later(old(s.loops[l]), s.loops[l])
      ensures notes == old(notes)
    {
      var env := Interfere();
    }

    /** Where a scan stops: after as many claims as allowed, or at the end of the list. */
    method FindStop(start: nat) returns (stop: nat)
      ensures LegalScan(s.group, start, stop, cfg.count, cfg.minIdle, s.clock)
    {
      stop := start;
      while stop <= s.group.last && |Claims(s.group, start, stop + 1, cfg.minIdle, s.clock)| <= cfg.count
        invariant start <= stop
        invariant |Claims(s.group, start, stop, cfg.minIdle, s.clock)| <= Max(0, cfg.count)
        decreases s.group.last + 1 - stop
      {
        stop := stop + 1;
      }
      ClaimsSplit(s.group, start, stop, stop + 1, cfg.minIdle, s.clock);
      assert Claims(s.group, stop + 1, stop + 1, cfg.minIdle, s.clock) == [];
      ClaimsFacts(s.group, start, stop, cfg.minIdle, s.clock);
      ghost var ids := Claims(s.group, start, stop, cfg.minIdle, s.clock);
      if ids != [] {
        assert ids[0] in ids;
      }
    }

    /** XAUTOCLAIM: the command may fail, or succeed on the server with its reply lost. */
    method XAutoClaim() returns (messages: seq<nat>, next: nat, failed: bool)
      requires Valid() && At(s, l, AtClaim)
      modifies this
      ensures Valid() && OneStep(l, old(run), run) && l in s.loops
      ensures s.loops[l] == if failed then AfterClaimError(cfg, old(s.loops[l]))
                            else old(s.loops[l]).(cursor := next, batch := messages, src := FromClaim, pc := Check(0))
      ensures notes == old(notes) + [if failed then ScanError else Scanned(messages)]
    {
      var reaches, lost: bool := *, *;
      if !reaches {
        Do(ClaimFailed(l));
        return [], 0, true;
      }
      var stop := FindStop(s.loops[l].cursor);
      Do(Claim(l, stop, lost));
      return s.loops[l].batch, s.loops[l].cursor, lost;
    }

    /** XREADGROUP with `>`: nothing new within the block time, a failure, or a batch, whose reply
        may be lost. */
    method XReadGroup() returns (messages: seq<nat>, failed: bool, nothing: bool)
      requires Valid() && At(s, l, AtRead)
      modifies this
      ensures Valid() && OneStep(l, old(run), run) && l in s.loops
      ensures nothing ==> failed
      ensures s.loops[l] == if nothing then old(s.loops[l]).(pc := Restart(old(s.loops[l])))
                            else if failed then AfterReadError(old(s.loops[l]))
                            else old(s.loops[l]).(batch := messages, src := FromRead, pc := Check(0))
      ensures notes == old(notes) + [if nothing then GotNothing else if failed then ReadError else Got(messages)]
    {
      var reaches, lost: bool := *, *;
      if !reaches {
        Do(ReadFailed(l));
        return [], true, false;
      }
      if Undelivered(s.group) <= 0 {
        Do(ReadNothing(l));
        return [], true, true;
      }
      Do(Read(l, lost));
      return s.loops[l].batch, lost, false;
    }

    /** XACK, which may fail before or after the server has acted on it. */
    method XAck()
      requires Valid() && l in s.loops && s.loops[l].pc.Acking?
      modifies this
      ensures Valid() && OneStep(l, old(run), run) && l in s.loops
      ensures s.loops[l] == old(s.loops[l]).(pc := Check(old(s.loops[l].pc.i) + 1))
      ensures notes == old(notes) + [Acked(IdAt(old(s.loops[l]), old(s.loops[l].pc.i)))]
    {
      var outcome: AckOutcome := *;
      Do(AutoAck(l, outcome));
    }

    /** The context check at the head of the loop, followed by the look at the clock. */
    method TopOfLoop() returns (done: bool, now: int)
      requires Valid() && At(s, l, Top)
      modifies this
      ensures Valid() && OneStep(l, old(run), run) && l in s.loops
      ensures done == old(s.loops[l].cancelled) && now == old(s.loops[l].now)
      ensures s.loops[l] == old(s.loops[l]).(pc := Decided(old(s.loops[l]))) && notes == old(notes)
    {
      done, now := s.loops[l].cancelled, s.loops[l].now;
      Do(Decide(l));
    }

    /** The context check before a message, or the end of the batch. */
    method TopOfBatch() returns (done: bool)
      requires Valid() && l in s.loops && s.loops[l].pc.Check?
      modifies this
      ensures Valid() && OneStep(l, old(run), run) && l in s.loops
      ensures done == old(s.loops[l].cancelled) && s.loops[l] == Checked(cfg, old(s.loops[l]))
      ensures notes == old(notes)
    {
      done := s.loops[l].cancelled;
      Do(CheckNext(l));
    }

    method EnterHandler()
      requires Valid() && l in s.loops && s.loops[l].pc.Ready?
      modifies this
      ensures Valid() && OneStep(l, old(run), run) && l in s.loops
      ensures s.loops[l]
           == old(s.loops[l]).(pc := Handling(old(s.loops[l].pc.i), Retry.Start(old(s.loops[l].retry)), NotAsked))
      ensures notes == old(notes) + [Called(IdAt(old(s.loops[l]), old(s.loops[l].pc.i)))]
    {
      Do(CallHandler(l));
    }

    method LeaveHandler()
      requires Valid() && l in s.loops && s.loops[l].pc.Handling?
      requires s.loops[l].pc.rpc.Returned? || s.loops[l].pc.rpc.Panicked?
      modifies this
      ensures Valid() && OneStep(l, old(run), run) && l in s.loops
      ensures s.loops[l] == old(s.loops[l]).(pc := Outcome(old(s.loops[l])))
      ensures notes == old(notes)
              + [Returned(IdAt(old(s.loops[l]), old(s.loops[l].pc.i)), old(s.loops[l].pc.rpc) == Retry.Returned(None))]
    {
      Do(HandlerReturns(l));
    }

    /** The second of pause after a failed read. */
    method Pause() returns (done: bool)
      requires Valid() && At(s, l, Pausing)
      modifies this
      ensures Valid() && OneStep(l, old(run), run) && l in s.loops
      ensures done == old(s.loops[l].cancelled) && s.loops[l] == old(s.loops[l]).(pc := Restart(old(s.loops[l])))
      ensures notes == old(notes) + [Paused]
    {
      done := s.loops[l].cancelled;
      Do(Resume(l));
    }

    /** The call of the subscriber's handler: user code inside the retry middleware, interleaved
        with everyone else. Its body stands for the choice; what matters is that it comes back with
        a result the middleware can produce, through protocol steps only. */
    method CallSubHandler() returns (err: bool)
      requires Valid() && l in s.loops && s.loops[l].pc.Handling?
      requires s.loops[l].pc.rpc == Retry.Start(s.loops[l].retry)
      modifies this
      ensures Valid() && old(run) <= run && l in s.loops && s.loops[l].pc.Handling?
      ensures s.loops[l].pc.rpc.Returned? || s.loops[l].pc.rpc.Panicked?
      ensures err == (s.loops[l].pc.rpc != Retry.Returned(None))
      ensures Later(old(s.loops[l]), s.loops[l].(pc := old(s.loops[l].pc))) && s.loops[l].pc.i == old(s.loops[l].pc.i)
      ensures notes == old(notes)
    {
      var rpc := s.loops[l].pc.rpc;
      if rpc.Looping? || rpc.DlqCheck? {
        CancelReturns(cfg, s, l);
        Do(HandlerEvent(l, Retry.CtxCheck(Some("")), false));
      }
      err := s.loops[l].pc.rpc != Retry.Returned(None);
    }

    /** The handler's whole call; only after a nil result is the loop about to acknowledge. */
    method RunHandler(i: nat) returns (err: bool)
      requires Valid() && At(s, l, Ready(i))
      modifies this
      ensures Valid() && old(run) <= run && l in s.loops
      ensures s.loops[l].pc == if !err && old(s.loops[l].autoAck) then Acking(i) else Check(i + 1)
      ensures Later(old(s.loops[l]).(pc := s.loops[l].pc), s.loops[l])
      ensures var id := IdAt(old(s.loops[l]), i); notes == old(notes) + [Called(id), Returned(id, !err)]
    {
      Wait();
      EnterHandler();
      err := FinishHandler(i);
    }

    /** The rest of the call, once it has begun. */
    method FinishHandler(i: nat) returns (err: bool)
      requires Valid() && l in s.loops && s.loops[l].pc.Handling? && s.loops[l].pc.i == i
      requires s.loops[l].pc.rpc == Retry.Start(s.loops[l].retry)
      modifies this
      ensures Valid() && old(run) <= run && l in s.loops
      ensures s.loops[l].pc == if !err && old(s.loops[l].autoAck) then Acking(i) else Check(i + 1)
      ensures Later(old(s.loops[l]).(pc := s.loops[l].pc), s.loops[l])
      ensures notes == old(notes) + [Returned(IdAt(old(s.loops[l]), i), !err)]
    {
      err := CallSubHandler();
      Wait();
      LeaveHandler();
    }

    method Acknowledge(i: nat)
      requires Valid() && At(s, l, Acking(i))
      modifies this
      ensures Valid() && old(run) <= run && l in s.loops
      ensures Later(old(s.loops[l]).(pc := Check(i + 1)), s.loops[l])
      ensures notes == old(notes) + [Acked(IdAt(old(s.loops[l]), i))]
    {
      Wait();
      XAck();
    }

    /** One message: unless the context is done, the handler is called, and the message is acknowledged
        if and only if the result was nil and acknowledging is automatic. */
    method HandleOne(i: nat) returns (done: bool, err: bool)
      requires Valid() && At(s, l, Check(i)) && i < |s.loops[l].batch|
      modifies this
      ensures Valid() && old(run) <= run && l in s.loops
      ensures if done then BatchOver(cfg, old(s.loops[l]), s.loops[l]) && s.loops[l].cancelled
              else Later(old(s.loops[l]).(pc := Check(i + 1)), s.loops[l])
      ensures old(s.loops[l].cancelled) ==> done
      ensures notes == old(notes)
              + if done then [] else OneMessage(old(s.loops[l]).batch[i], !err, old(s.loops[l]).autoAck)
    {
      err := false;
      Wait();
      done := TopOfBatch();
      if done {
        return;
      }
      err := HandleChecked(i);
    }

    /** The message after its context check. */
    method HandleChecked(i: nat) returns (err: bool)
      requires Valid() && At(s, l, Ready(i)) && i < |s.loops[l].batch|
      modifies this
      ensures Valid() && old(run) <= run && l in s.loops
      ensures Later(old(s.loops[l]).(pc := Check(i + 1)), s.loops[l])
      ensures notes == old(notes) + OneMessage(old(s.loops[l]).batch[i], !err, old(s.loops[l]).autoAck)
    {
      err := RunHandler(i);
      if err {
        return;
      }
      if s.loops[l].autoAck {
        Acknowledge(i);
      }
    }

    /** `handleMessages`. The messages are handled one after the other, each acknowledged only after a
        nil result; the rest is skipped only once the context is cancelled. */
    method HandleMessages(messages: seq<nat>) returns (ghost results: seq<bool>)
      requires Valid() && At(s, l, Check(0)) && s.loops[l].batch == messages
      modifies this
      ensures Valid() && old(run) <= run && l in s.loops && BatchOver(cfg, old(s.loops[l]), s.loops[l])
      ensures |results| <= |messages| && (|results| < |messages| ==> s.loops[l].cancelled)
      ensures old(s.loops[l].cancelled) ==> results == []
      ensures notes == old(notes) + Worked(messages[..|results|], results, old(s.loops[l]).autoAck)
    {
      ghost var first, was := s.loops[l], notes;
      results := [];
      for i := 0 to |messages|
        invariant Valid() && old(run) <= run && l in s.loops
        invariant Later(first.(pc := Check(i)), s.loops[l])
        invariant (first.cancelled ==> i == 0) && |results| == i
        invariant notes == was + Worked(messages[..i], results, first.autoAck)
      {
        var done, err := HandleOne(i);
        if done {
          return;
        }
        WorkedAppends(was, messages, i, results, !err, first.autoAck);
        results := results + [!err];
      }
      Wait();
      var done := TopOfBatch();
    }

    /** A recovery scan that is due. If the reply arrived the cursor moves and the batch is handled,
        else the cursor stays where it was. */
    method Scan(cursor: nat) returns (next: nat, stopped: bool, ghost steps: seq<Note>)
      requires Valid() && At(s, l, AtClaim) && s.loops[l].cursor == cursor
      modifies this
      ensures Valid() && old(run) <= run && l in s.loops && Same(old(s.loops[l]), s.loops[l])
      ensures s.loops[l].cursor == next
      ensures if stopped then s.loops[l].pc == Exited && s.loops[l].cancelled
              else At(s, l, AtRead) && s.loops[l].nextClaim == s.loops[l].now + cfg.interval
      ensures notes == old(notes) + steps && ScanWork(steps, old(s.loops[l]).autoAck)
      ensures steps[0] == ScanError ==> next == cursor
      ensures stopped ==> steps[0] == ScanError
      ensures steps[0] == ScanError ==> (stopped <==> s.loops[l].cancelled)
    {
      next := cursor;
      var messages, reply, failed := XAutoClaim();
      steps := [if failed then ScanError else Scanned(messages)];
      if failed {
        if s.loops[l].cancelled {
          return next, true, steps;
        }
      } else {
        next := reply;
        ghost var results := HandleMessages(messages);
        steps := steps + Worked(messages[..|results|], results, old(s.loops[l]).autoAck);
        BatchFollows(old(notes), Scanned(messages), messages, results, old(s.loops[l]).autoAck);
      }
      stopped := false;
    }

    /** The read of new messages: a batch, which is handled, or nothing, or a failure followed by a
        pause. Only a cancelled loop stops here. */
    method ReadBatch() returns (stopped: bool, ghost steps: seq<Note>)
      requires Valid() && At(s, l, AtRead)
      modifies this
      ensures Valid() && old(run) <= run && l in s.loops && Same(old(s.loops[l]), s.loops[l])
      ensures s.loops[l].cursor == old(s.loops[l].cursor) && s.loops[l].nextClaim == old(s.loops[l].nextClaim)
      ensures s.loops[l].pc == if stopped then Exited else Top
      ensures notes == old(notes) + steps && ReadWork(steps, old(s.loops[l]).autoAck)
      ensures stopped ==> s.loops[l].cancelled && !steps[0].Got?
      ensures !steps[0].Got? ==> (stopped <==> s.loops[l].cancelled)
      ensures steps[0] == ReadError && !stopped ==> steps == [ReadError, Paused]
      ensures steps == [ReadError] ==> stopped
    {
      var messages, failed, nothing := XReadGroup();
      steps := [if nothing then GotNothing else if failed then ReadError else Got(messages)];
      if failed {
        if s.loops[l].cancelled {
          return true, steps;
        }
        if nothing {
          return false, steps;
        }
        Wait();
        stopped := Pause();
        steps := steps + [Paused];
        return;
      }
      ghost var results := HandleMessages(messages);
      steps := steps + Worked(messages[..|results|], results, old(s.loops[l]).autoAck);
      BatchFollows(old(notes), Got(messages), messages, results, old(s.loops[l]).autoAck);
      stopped := false;
    }

    /** One iteration of the loop in `consumeLoop`. */
    method Round(cursor: nat, nextClaim: int)
      returns (cursor': nat, nextClaim': int, stopped: bool, ghost steps: seq<Note>)
      requires Valid() && At(s, l, Top) && s.loops[l].cursor == cursor && s.loops[l].nextClaim == nextClaim
      modifies this
      ensures Valid() && old(run) <= run && l in s.loops && Same(old(s.loops[l]), s.loops[l])
      ensures s.loops[l].pc == if stopped then Exited else Top
      ensures stopped ==> s.loops[l].cancelled
      ensures old(s.loops[l].cancelled) ==> stopped && steps == []
      ensures !stopped && nextClaim <= old(s.loops[l].now) ==> steps != [] && (steps[0].Scanned? || steps[0].ScanError?)
      ensures !stopped ==> s.loops[l].cursor == cursor' && s.loops[l].nextClaim == nextClaim'
      ensures notes == old(notes) + steps && RoundWork(steps, old(s.loops[l]).autoAck, !stopped)
    {
      ghost var was, autoAck := notes, s.loops[l].autoAck;
      cursor', nextClaim', stopped, steps := FirstPart(cursor, nextClaim);
      ghost var read: seq<Note> := [];
      if !stopped {
        Wait();
        stopped, read := ReadBatch();
      }
      RoundIs(was, steps, read, autoAck, !stopped);
      steps := steps + read;
    }

    /** The iteration up to the read: the context check, the look at the clock, and the scan if due. */
    method FirstPart(cursor: nat, nextClaim: int)
      returns (cursor': nat, nextClaim': int, stopped: bool, ghost steps: seq<Note>)
      requires Valid() && At(s, l, Top) && s.loops[l].cursor == cursor && s.loops[l].nextClaim == nextClaim
      modifies this
      ensures Valid() && old(run) <= run && l in s.loops && Same(old(s.loops[l]), s.loops[l])
      ensures s.loops[l].pc == if stopped then Exited else AtRead
      ensures stopped ==> s.loops[l].cancelled
      ensures old(s.loops[l].cancelled) ==> stopped && steps == []
      ensures !stopped && nextClaim <= old(s.loops[l].now) ==> steps != []
      ensures !stopped ==> s.loops[l].cursor == cursor' && s.loops[l].nextClaim == nextClaim'
      ensures notes == old(notes) + steps && (steps == [] || ScanWork(steps, old(s.loops[l]).autoAck))
    {
      cursor', nextClaim', steps := cursor, nextClaim, [];
      Wait();
      var done, now := TopOfLoop();
      if done {
        stopped := true;
        return;
      }
      stopped := false;
      if now >= nextClaim {
        Wait();
        cursor', stopped, steps := Scan(cursor);
        nextClaim' := s.loops[l].now + cfg.interval;
      }
    }

    /** `consumeLoop`, for any number of rounds; `stopped` tells that it returned and so closed `done`.
        What it does is a sequence of rounds, and it stops only when cancelled. `cursor` and `nextClaim`
        are its locals; the protocol state only mirrors them. From an empty broker on, no message is
        lost and deliveries are spaced. */
    method ConsumeLoop(count: nat) returns (stopped: bool, ghost rounds: seq<seq<Note>>)
      requires Valid() && At(s, l, Top) && s.loops[l].cursor == 0 && s.loops[l].nextClaim == 0
      modifies this
      ensures Valid() && old(run) <= run && l in s.loops
      ensures s.loops[l].pc == if stopped then Exited else Top
      ensures if stopped then s.loops[l].cancelled else |rounds| == count
      ensures notes == old(notes) + Flat(rounds) && AllRounds(rounds, old(s.loops[l]).autoAck, stopped)
      ensures start == INIT ==> Safe(cfg, run, s)
    {
      ghost var autoAck, was := s.loops[l].autoAck, notes;
      stopped, rounds := false, [];
      var cursor, nextClaim := 0, 0;
      for n := 0 to count
        invariant !stopped && Valid() && old(run) <= run && At(s, l, Top) && s.loops[l].autoAck == autoAck
        invariant s.loops[l].cursor == cursor && s.loops[l].nextClaim == nextClaim
        invariant |rounds| == n && notes == was + Flat(rounds) && AllRounds(rounds, autoAck, false)
      {
        ghost var steps: seq<Note>;
        cursor, nextClaim, stopped, steps := Round(cursor, nextClaim);
        RoundsAppend(rounds, steps, autoAck, stopped);
        FlatAppends(was, rounds, steps);
        rounds := rounds + [steps];
        if stopped {
          break;
        }
      }
      if start == INIT {
        Guarantees(cfg, run);
      }
    }
  }

  /** What the run theorems say of a state. */
  ghost predicate Safe(cfg: Config, run: seq<Action>, s: State) {
    Fidelity.Inv(s) && Spacing.Inv(cfg, s) && (NoLoss.SoundSpawns(run) ==> NoLoss.Inv(s))
  }

  lemma Guarantees(cfg: Config, run: seq<Action>)
    requires After(cfg, INIT, run).Some?
    ensures Safe(cfg, run, After(cfg, INIT, run).value)
  {
    Fidelity.RunKeepsInv(cfg, run);
    Spacing.RunKeepsInv(cfg, run);
    if NoLoss.SoundSpawns(run) {
      NoLoss.RunKeepsInv(cfg, run);
    }
  }

  lemma WorkedAppends(was: seq<Note>, ids: seq<nat>, i: nat, results: seq<bool>, success: bool, autoAck: bool)
    requires i < |ids| && |results| == i
    ensures was + Worked(ids[..i + 1], results + [success], autoAck)
         == was + Worked(ids[..i], results, autoAck) + OneMessage(ids[i], success, autoAck)
  {
    assert ids[..i + 1][..i] == ids[..i];
    assert (results + [success])[..i] == results;
  }

  /** Where `handleMessages` leaves its loop: after a scan the next one is scheduled and a read
      follows; after a read the loop starts over. */
  predicate BatchOver(cfg: Config, before: Loop, after: Loop) {
    && Same(before, after)
    && after.cursor == before.cursor
    && if before.src == FromClaim then after.pc == AtRead && after.nextClaim == after.now + cfg.interval
       else after.pc == Top && after.nextClaim == before.nextClaim
  }

  /** A handler whose context is found done returns at once. */
  lemma CancelReturns(cfg: Config, s: State, l: nat)
    requires l in s.loops && s.loops[l].pc.Handling? && (s.loops[l].pc.rpc.Looping? || s.loops[l].pc.rpc.DlqCheck?)
    ensures Enabled(cfg, s, HandlerEvent(l, Retry.CtxCheck(Some("")), false))
    ensures var a := HandlerEvent(l, Retry.CtxCheck(Some("")), false);
      && l in Next(cfg, s, a).loops && NotesOf(cfg, s, a, l) == []
      && Next(cfg, s, a).loops[l] == s.loops[l].(pc := s.loops[l].pc.(rpc := Retry.Returned(Some(""))))
  {
  }

  /** One more action, and it is the loop's own. */
  ghost predicate OneStep(l: nat, before: seq<Action>, after: seq<Action>) {
    |after| == |before| + 1 && before <= after && Mover(after[|before|]) == Some(l)
  }
}
