/** Which copies of the in-process broker can still be handled. `Unsubscribe` and `Disconnect` end a
    subscriber's goroutine but leave the subscriber registered, so that publishes go on choosing it
    (`broker/mchannel/channel.go`). */
module ChannelLiveness {
  import opened Prelude
  import opened Channel
  import opened ChannelSafety
  import ChannelOrder

  predicate IsBlocked(s: State, c: Copy, i: nat) {
    exists k :: 0 <= k < |s.blocked| && s.blocked[k] == Blocked(c, i)
  }

  /** Copy `c` is queued for subscriber `i`, or being handled by it, or blocked on its queue. */
  predicate AwaitedBy(s: State, c: Copy, i: nat) {
    i < |s.subs| && (c in s.subs[i].pending || s.subs[i].busy == Some(c) || IsBlocked(s, c, i))
  }

  predicate IsHandled(s: State, c: Copy) {
    exists i :: 0 <= i < |s.subs| && c in s.subs[i].handled
  }

  predicate Exited(s: State, i: nat) {
    i < |s.subs| && s.subs[i].exited
  }

  /** The goroutine of a subscriber that has exited is not handling anything. */
  predicate ExitedOk(s: State) {
    forall i | 0 <= i < |s.subs| :: s.subs[i].exited ==> s.subs[i].busy.None?
  }

  lemma StepKeepsExitedOk(s: State, a: Action)
    requires ExitedOk(s) && Enabled(s, a)
    ensures ExitedOk(Next(s, a))
  {
  }

  lemma {:induction false} RunKeepsAll(run: seq<Action>)
    requires After(INIT, run).Some?
    ensures Inv(After(INIT, run).value) && ExitedOk(After(INIT, run).value)
    decreases |run|
  {
    if run == [] {
    } else {
      var n := |run| - 1;
      RunKeepsAll(run[..n]);
      StepKeepsInv(After(INIT, run[..n]).value, run[n]);
      StepKeepsExitedOk(After(INIT, run[..n]).value, run[n]);
    }
  }

  lemma {:induction false} RunsConcat(s: State, a: seq<Action>, b: seq<Action>)
    requires After(s, a).Some?
    ensures After(s, a + b) == After(After(s, a).value, b)
    decreases |b|
  {
    if b == [] {
      assert a + b == a;
    } else {
      assert (a + b)[..|a + b| - 1] == a + b[..|b| - 1];
      RunsConcat(s, a, b[..|b| - 1]);
    }
  }

  // ---- What an exited subscriber keeps ----

  lemma ExitedKeepsSub(s: State, a: Action, i: nat)
    requires ExitedOk(s) && Enabled(s, a) && Exited(s, i)
    ensures Exited(Next(s, a), i)
    ensures s.subs[i].pending <= Next(s, a).subs[i].pending && Next(s, a).subs[i].busy.None?
  {
  }

  lemma ProceedMovesBlocked(s: State, k: nat, c: Copy, i: nat)
    requires Enabled(s, SenderProceeds(k)) && IsBlocked(s, c, i) && Exited(s, i)
    ensures AwaitedBy(Next(s, SenderProceeds(k)), c, i)
  {
    var t := Next(s, SenderProceeds(k));
    var b :| 0 <= b < |s.blocked| && s.blocked[b] == Blocked(c, i);
    if b == k {
      assert t.subs[i].pending == s.subs[i].pending + [c];
    } else {
      assert t.blocked[if b < k then b else b - 1] == Blocked(c, i);
    }
  }

  lemma OtherKeepsBlocked(s: State, a: Action, c: Copy, i: nat)
    requires Enabled(s, a) && !a.SenderProceeds? && IsBlocked(s, c, i)
    ensures IsBlocked(Next(s, a), c, i)
  {
    var b :| 0 <= b < |s.blocked| && s.blocked[b] == Blocked(c, i);
    BlockedStays(s, a, b);
  }

  lemma BlockedStays(s: State, a: Action, b: nat)
    requires Enabled(s, a) && !a.SenderProceeds? && b < |s.blocked|
    ensures b < |Next(s, a).blocked| && Next(s, a).blocked[b] == s.blocked[b]
  {
  }

  lemma StepKeepsStuck(s: State, a: Action, c: Copy, i: nat)
    requires ExitedOk(s) && Enabled(s, a) && Exited(s, i) && AwaitedBy(s, c, i)
    ensures Exited(Next(s, a), i) && AwaitedBy(Next(s, a), c, i)
  {
    ExitedKeepsSub(s, a, i);
    if c in s.subs[i].pending {
      var m :| 0 <= m < |s.subs[i].pending| && s.subs[i].pending[m] == c;
      assert Next(s, a).subs[i].pending[m] == c;
    } else if a.SenderProceeds? {
      ProceedMovesBlocked(s, a.k, c, i);
    } else {
      OtherKeepsBlocked(s, a, c, i);
    }
  }

  lemma {:induction false} StuckStays(s: State, run: seq<Action>, c: Copy, i: nat)
    requires ExitedOk(s) && After(s, run).Some? && Exited(s, i) && AwaitedBy(s, c, i)
    ensures ExitedOk(After(s, run).value)
    ensures Exited(After(s, run).value, i) && AwaitedBy(After(s, run).value, c, i)
    decreases |run|
  {
    if run == [] {
    } else {
      var n := |run| - 1;
      var mid := After(s, run[..n]).value;
      StuckStays(s, run[..n], c, i);
      StepKeepsExitedOk(mid, run[n]);
      StepKeepsStuck(mid, run[n], c, i);
    }
  }

  // ---- A copy is in one place ----

  lemma {:induction false} SumOfTwo(bags: seq<multiset<Copy>>, i: nat, j: nat, c: Copy)
    requires i < |bags| && j < |bags| && i != j
    ensures bags[i][c] + bags[j][c] <= Sum(bags)[c]
    decreases |bags|
  {
    var n := |bags| - 1;
    if i == n {
      ChannelOrder.InSumAtMost(bags[..n], j, c);
    } else if j == n {
      ChannelOrder.InSumAtMost(bags[..n], i, c);
    } else {
      SumOfTwo(bags[..n], i, j, c);
    }
  }

  lemma {:induction false} BlockedWaits(blocked: seq<Blocked>, k: nat)
    requires k < |blocked|
    ensures Waiting(blocked)[blocked[k].copy] >= 1
    decreases |blocked|
  {
    if k < |blocked| - 1 {
      BlockedWaits(blocked[..|blocked| - 1], k);
    }
  }

  lemma OwnCounts(sub: Sub, c: Copy)
    ensures c in sub.handled ==> Own(sub)[c] >= 1
    ensures c in sub.pending || sub.busy == Some(c) ==> Own(sub)[c] >= 1
    ensures c in sub.handled && (c in sub.pending || sub.busy == Some(c)) ==> Own(sub)[c] >= 2
  {
    assert Own(sub)[c] == multiset(sub.pending)[c] + AsBag(sub.busy)[c] + multiset(sub.handled)[c];
  }

  lemma AtMostOnce(s: State, c: Copy)
    requires Inv(s)
    ensures Held(s.subs)[c] + Waiting(s.blocked)[c] <= 1
  {
    assert Everywhere(s)[c] == Held(s.subs)[c] + Waiting(s.blocked)[c];
    assert multiset(Created(s))[c] <= 1;
  }

  lemma AwaitedIsNotHandled(s: State, c: Copy, i: nat)
    requires Inv(s) && AwaitedBy(s, c, i)
    ensures !IsHandled(s, c)
  {
    AtMostOnce(s, c);
    if IsHandled(s, c) {
      var j :| 0 <= j < |s.subs| && c in s.subs[j].handled;
      HandledMakesTwo(s, c, i, j);
    }
  }

  lemma HandledMakesTwo(s: State, c: Copy, i: nat, j: nat)
    requires AwaitedBy(s, c, i) && j < |s.subs| && c in s.subs[j].handled
    ensures Held(s.subs)[c] + Waiting(s.blocked)[c] >= 2
  {
    var bags := Owns(s.subs);
    OwnCounts(s.subs[i], c);
    OwnCounts(s.subs[j], c);
    assert bags[i] == Own(s.subs[i]) && bags[j] == Own(s.subs[j]);
    ChannelOrder.InSumAtMost(bags, j, c);
    if IsBlocked(s, c, i) {
      var k :| 0 <= k < |s.blocked| && s.blocked[k] == Blocked(c, i);
      BlockedWaits(s.blocked, k);
    } else if i != j {
      SumOfTwo(bags, i, j, c);
    }
  }

  // ---- What a live subscriber can do ----

  /** `run` leads to a state in which `c` is handled. */
  predicate Handles(s: State, run: seq<Action>, c: Copy) {
    After(s, run).Some? && IsHandled(After(s, run).value, c)
  }

  lemma OneStep(s: State, a: Action)
    requires Enabled(s, a)
    ensures After(s, [a]) == Some(Next(s, a))
  {
    assert [a][..0] == [];
  }

  lemma HandlesAfter(s: State, first: seq<Action>, t: State, rest: seq<Action>, c: Copy)
    requires After(s, first) == Some(t) && Handles(t, rest, c)
    ensures Handles(s, first + rest, c)
  {
    RunsConcat(s, first, rest);
  }

  lemma HandleBusy(s: State, i: nat, c: Copy) returns (run: seq<Action>)
    requires i < |s.subs| && s.subs[i].busy == Some(c)
    ensures Handles(s, run, c)
  {
    run := [Finish(i)];
    OneStep(s, Finish(i));
    var sub := Next(s, Finish(i)).subs[i];
    assert sub.handled[|sub.handled| - 1] == c;
  }

  /** One step of a live subscriber with something queued: the handler returns, or the next copy is taken. */
  lemma {:induction false} HandleQueued(s: State, i: nat, m: nat) returns (run: seq<Action>)
    requires i < |s.subs| && !s.subs[i].exited && m < |s.subs[i].pending|
    ensures Handles(s, run, s.subs[i].pending[m])
    decreases m, s.subs[i].busy.Some?
  {
    var c, sub := s.subs[i].pending[m], s.subs[i];
    if sub.busy.Some? {
      var t := Next(s, Finish(i));
      assert t.subs[i] == Finished(sub);
      var rest := HandleQueued(t, i, m);
      OneStep(s, Finish(i));
      run := [Finish(i)] + rest;
      HandlesAfter(s, [Finish(i)], t, rest, c);
    } else {
      var t := Next(s, Take(i));
      assert t.subs[i] == Took(sub);
      var rest: seq<Action>;
      if m == 0 {
        rest := HandleBusy(t, i, c);
      } else {
        rest := HandleQueued(t, i, m - 1);
      }
      OneStep(s, Take(i));
      run := [Take(i)] + rest;
      HandlesAfter(s, [Take(i)], t, rest, c);
    }
  }

  /** A sender blocked on a live subscriber gets through once there is room. */
  lemma HandleAdmitted(s: State, k: nat) returns (run: seq<Action>)
    requires k < |s.blocked| && s.blocked[k].to < |s.subs| && !s.subs[s.blocked[k].to].exited
    requires Receptive(s.subs[s.blocked[k].to])
    ensures Handles(s, run, s.blocked[k].copy)
  {
    var c, i := s.blocked[k].copy, s.blocked[k].to;
    var t := Next(s, SenderProceeds(k));
    OneStep(s, SenderProceeds(k));
    var rest: seq<Action>;
    if |s.subs[i].pending| < s.subs[i].cap {
      assert t.subs[i].pending[|s.subs[i].pending|] == c;
      rest := HandleQueued(t, i, |s.subs[i].pending|);
    } else {
      rest := HandleBusy(t, i, c);
    }
    run := [SenderProceeds(k)] + rest;
    HandlesAfter(s, [SenderProceeds(k)], t, rest, c);
  }

  lemma HandleBlocked(s: State, k: nat) returns (run: seq<Action>)
    requires QueuesOk(s.subs) && k < |s.blocked| && s.blocked[k].to < |s.subs| && !s.subs[s.blocked[k].to].exited
    ensures Handles(s, run, s.blocked[k].copy)
  {
    var c, i := s.blocked[k].copy, s.blocked[k].to;
    if Receptive(s.subs[i]) {
      run := HandleAdmitted(s, k);
    } else if s.subs[i].busy.Some? {
      var t := Next(s, Finish(i));
      OneStep(s, Finish(i));
      var rest := HandleIdle(t, k);
      run := [Finish(i)] + rest;
      HandlesAfter(s, [Finish(i)], t, rest, c);
    } else {
      run := HandleIdle(s, k);
    }
  }

  /** An idle subscriber has room, or makes some by taking a copy. */
  lemma HandleIdle(s: State, k: nat) returns (run: seq<Action>)
    requires QueuesOk(s.subs) && k < |s.blocked| && s.blocked[k].to < |s.subs| && Channel.Idle(s.subs[s.blocked[k].to])
    ensures Handles(s, run, s.blocked[k].copy)
  {
    var c, i := s.blocked[k].copy, s.blocked[k].to;
    if Receptive(s.subs[i]) {
      run := HandleAdmitted(s, k);
    } else {
      var t := Next(s, Take(i));
      OneStep(s, Take(i));
      assert t.subs[i] == Took(s.subs[i]);
      var rest := HandleAdmitted(t, k);
      run := [Take(i)] + rest;
      HandlesAfter(s, [Take(i)], t, rest, c);
    }
  }

  // ---- Main results ----

  /** A copy can still be handled, in some continuation of the run. */
  ghost predicate CanBeHandled(s: State, c: Copy) {
    exists run: seq<Action> :: Handles(s, run, c)
  }

  lemma LiveCanBeHandled(s: State, c: Copy, i: nat)
    requires Inv(s) && AwaitedBy(s, c, i) && !Exited(s, i)
    ensures CanBeHandled(s, c)
  {
    var run: seq<Action>;
    if c in s.subs[i].pending {
      var m :| 0 <= m < |s.subs[i].pending| && s.subs[i].pending[m] == c;
      run := HandleQueued(s, i, m);
    } else if s.subs[i].busy == Some(c) {
      run := HandleBusy(s, i, c);
    } else {
      var k :| 0 <= k < |s.blocked| && s.blocked[k] == Blocked(c, i);
      run := HandleBlocked(s, k);
    }
    assert Handles(s, run, c);
  }

  /** Main result. A copy that a subscriber has not handled yet can still be handled if and only if the
      subscriber's goroutine has not exited: otherwise no continuation of the run, reconnecting included,
      ever handles it. */
  lemma CanBeHandledIff(run: seq<Action>, s: State, c: Copy, i: nat)
    requires After(INIT, run) == Some(s) && AwaitedBy(s, c, i)
    ensures CanBeHandled(s, c) <==> !Exited(s, i)
  {
    RunKeepsAll(run);
    if Exited(s, i) {
      forall more: seq<Action> | After(s, more).Some?
        ensures !IsHandled(After(s, more).value, c)
      {
        StuckStays(s, more, c, i);
        RunsConcat(INIT, run, more);
        RunKeepsAll(run + more);
        AwaitedIsNotHandled(After(s, more).value, c, i);
      }
    } else {
      LiveCanBeHandled(s, c, i);
    }
  }

  /** Every copy that was created and not handled is awaited by a subscriber. */
  lemma CreatedIsSomewhere(run: seq<Action>, s: State, c: Copy) returns (i: nat)
    requires After(INIT, run) == Some(s) && c in Created(s) && !IsHandled(s, c)
    ensures AwaitedBy(s, c, i)
  {
    RunKeepsAll(run);
    assert Everywhere(s)[c] == 1;
    if Waiting(s.blocked)[c] > 0 {
      var k := BlockedSomewhere(s.blocked, c);
      i := s.blocked[k].to;
      assert s.blocked[k] == Blocked(c, i);
    } else {
      i := ChannelOrder.InSum(Owns(s.subs), c);
      assert Own(s.subs[i])[c] == 1;
      assert multiset(s.subs[i].pending)[c] + AsBag(s.subs[i].busy)[c] + multiset(s.subs[i].handled)[c] == 1;
      assert c !in s.subs[i].handled;
    }
  }

  lemma {:induction false} BlockedSomewhere(blocked: seq<Blocked>, c: Copy) returns (k: nat)
    requires Waiting(blocked)[c] > 0
    ensures k < |blocked| && blocked[k].copy == c
    decreases |blocked|
  {
    if blocked[|blocked| - 1].copy == c {
      k := |blocked| - 1;
    } else {
      k := BlockedSomewhere(blocked[..|blocked| - 1], c);
    }
  }

  /** A publish that comes to an exited member with room leaves its copy there, never to be handled, however
      many live members the group has. */
  lemma ExitedMemberSwallows(run: seq<Action>, s: State, p: nat, parked: bool, i: nat)
    requires After(INIT, run) == Some(s) && Enabled(s, TryMember(p, parked)) && Target(s, p) == Some(i)
    requires Exited(s, i) && |s.subs[i].pending| < s.subs[i].cap
    ensures var c, t := Copy(p, s.pubs[p].current.value.0), Next(s, TryMember(p, parked));
      AwaitedBy(t, c, i) && !CanBeHandled(t, c)
  {
    var c, t := Copy(p, s.pubs[p].current.value.0), Next(s, TryMember(p, parked));
    assert t.subs[i].pending[|s.subs[i].pending|] == c;
    assert (run + [TryMember(p, parked)])[..|run|] == run;
    CanBeHandledIff(run + [TryMember(p, parked)], t, c, i);
  }

  // ---- A run in which that happens ----

  const GONE: Sub := Sub("t", "g", "a", 1, [], None, [], true, true)
  const ALIVE: Sub := Sub("t", "g", "b", 1, [], None, [], false, false)
  const GROUPS: map<string, seq<nat>> := map["g" := [0, 1]]

  /** Two subscribers share a group, the first is unsubscribed and exits, and a publish comes to it. */
  const SWALLOWING: seq<Action> :=
    [Connect, SubscribeChecks, SubscribeRegisters("t", "g", "a", 1), SubscribeChecks,
     SubscribeRegisters("t", "g", "b", 1), Unsubscribe(0), Exit(0), PublishBegins(0, "t"), PickGroup(0, "g")]

  /** The state after `k` of these steps. */
  function Stage(k: nat): State {
    var first := GONE.(exitSignal := k >= 6, exited := k >= 7);
    State(k >= 1, if k == 2 || k == 4 then 1 else 0,
          if k < 3 then [] else if k < 5 then [first] else [first, ALIVE],
          if k < 8 then map[] else map[0 := Pub(GROUPS, {"g"}, if k < 9 then None else Some(("g", 0)), false, {})],
          [], [], false)
  }

  lemma BothInGroup(subs: seq<Sub>)
    requires |subs| == 2 && subs[0].topic == subs[1].topic == "t" && subs[0].queue == subs[1].queue == "g"
    ensures Snapshot(subs, "t") == [0, 1] && InRange(subs, [0, 1]) && Groups(subs, [0, 1]) == GROUPS
  {
    assert subs[..1][..0] == [];
    assert Snapshot(subs[..1], "t") == [0];
    var listed: seq<nat> := [0, 1];
    assert listed[..1] == [0] && listed[..1][..0] == [];
    assert Members(subs, listed[..1], "g") == [0];
    assert Members(subs, listed, "g") == [0, 1];
    assert 0 in listed && forall i | i in listed :: GroupOf(subs[i]) == "g";
  }

  lemma BeginsAt(s: State)
    requires s == Stage(7)
    ensures Begun(s, 0, "t") == Stage(8)
  {
    BothInGroup(s.subs);
    assert Returned(s) == {};
    assert GROUPS.Keys == {"g"};
    assert Begun(s, 0, "t").pubs == map[0 := Pub(GROUPS, {"g"}, None, false, {})];
  }

  lemma RegistrationLeads(k: nat)
    requires k < 5
    ensures Enabled(Stage(k), SWALLOWING[k]) && Next(Stage(k), SWALLOWING[k]) == Stage(k + 1)
  {
  }

  lemma StageLeads(k: nat)
    requires k < 9
    ensures Enabled(Stage(k), SWALLOWING[k]) && Next(Stage(k), SWALLOWING[k]) == Stage(k + 1)
  {
    if k < 5 {
      RegistrationLeads(k);
    } else if k == 7 {
      BeginsAt(Stage(7));
    }
  }

  lemma {:induction false} StageReached(k: nat)
    requires k <= 9
    ensures After(INIT, SWALLOWING[..k]) == Some(Stage(k))
  {
    if k == 0 {
      assert SWALLOWING[..0] == [];
    } else {
      StageReached(k - 1);
      StageLeads(k - 1);
      assert SWALLOWING[..k][..k - 1] == SWALLOWING[..k - 1];
    }
  }

  /** The first subscriber has exited, the second lives, and the copy goes to the first, for good. */
  lemma LiveMemberPassedOver()
    ensures After(INIT, SWALLOWING) == Some(Stage(9)) && Exited(Stage(9), 0) && !Exited(Stage(9), 1)
    ensures Enabled(Stage(9), TryMember(0, false)) && Target(Stage(9), 0) == Some(0)
    ensures var t := Next(Stage(9), TryMember(0, false));
      AwaitedBy(t, Copy(0, "g"), 0) && !CanBeHandled(t, Copy(0, "g"))
  {
    StageReached(9);
    assert SWALLOWING[..9] == SWALLOWING;
    ExitedMemberSwallows(SWALLOWING, Stage(9), 0, false, 0);
  }
}
