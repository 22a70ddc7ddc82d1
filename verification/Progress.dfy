/** A consumer loop left alone with handlers and acknowledgements that succeed drains its group. */
module Progress {
  import opened Prelude
  import opened Streams
  import Retry
  import opened Delivery
  import Recovery
  import Fidelity

  /** Reads that returned something. */
  function Reads(run: seq<Action>): nat {
    if run == [] then 0 else Reads(run[..|run| - 1]) + (if run[|run| - 1].Read? then 1 else 0)
  }

  predicate NoPublish(run: seq<Action>) {
    run != [] ==> NoPublish(run[..|run| - 1]) && !run[|run| - 1].Publish?
  }

  lemma StepUndelivered(cfg: Config, s: State, a: Action)
    requires cfg.count > 0 && Valid(s.group) && Enabled(cfg, s, a) && !a.Publish?
    ensures Undelivered(Next(cfg, s, a).group)
         == if a.Read? then Max(0, Undelivered(s.group) - cfg.count) else Undelivered(s.group)
  {
    if a.Read? {
      ReadNewDelivers(s.group, s.loops[a.l].owner, cfg.count, s.clock);
    }
  }

  /** What `r` reads of up to `c` entries leave of `u`. */
  function LeftOver(u: int, r: nat, c: int): int {
    if r == 0 then Max(0, u) else Max(0, LeftOver(u, r - 1, c) - c)
  }

  lemma {:induction false} LeftOverIs(u: int, r: nat, c: nat)
    ensures LeftOver(u, r, c) == Max(0, u - r * c)
  {
    if r == 0 {
    } else {
      LeftOverIs(u, r - 1, c);
      Scale(r - 1, r - 1, c);
    }
  }

  lemma {:induction false} ReadsLeaveOver(cfg: Config, s: State, run: seq<Action>, t: State)
    requires cfg.count > 0 && Valid(s.group) && After(cfg, s, run) == Some(t) && NoPublish(run)
    ensures Valid(t.group) && Undelivered(t.group) == LeftOver(Undelivered(s.group), Reads(run), cfg.count)
    decreases |run|
  {
    if run == [] {
    } else {
      var n := |run| - 1;
      var mid := After(cfg, s, run[..n]).value;
      ReadsLeaveOver(cfg, s, run[..n], mid);
      StepLeavesOver(cfg, mid, run[n], Undelivered(s.group), Reads(run[..n]));
    }
  }

  lemma StepLeavesOver(cfg: Config, s: State, a: Action, u: int, r: nat)
    requires cfg.count > 0 && Valid(s.group) && Enabled(cfg, s, a) && !a.Publish?
    requires Undelivered(s.group) == LeftOver(u, r, cfg.count)
    ensures Valid(Next(cfg, s, a).group)
    ensures Undelivered(Next(cfg, s, a).group) == LeftOver(u, if a.Read? then r + 1 else r, cfg.count)
  {
    StepKeepsValid(cfg, s, a);
    StepUndelivered(cfg, s, a);
  }

  /** Main result. Without new publishes, whatever else happens, `r` non-empty reads by any loops
      leave exactly `max(0, U - r * count)` of `U` undelivered entries: nothing is left after
      `ceil(U / count)` of them. */
  lemma ReadsDrain(cfg: Config, s: State, run: seq<Action>, t: State)
    requires cfg.count > 0 && Valid(s.group) && After(cfg, s, run) == Some(t) && NoPublish(run)
    ensures Undelivered(t.group) == Max(0, Undelivered(s.group) - Reads(run) * cfg.count)
  {
    ReadsLeaveOver(cfg, s, run, t);
    LeftOverIs(Undelivered(s.group), Reads(run), cfg.count);
  }

  // ---- One loop, undisturbed ----

  /** A step of loop `l` in which handlers and acknowledgements succeed and no reply is lost, or of the
      clocks. Commands may fail to reach the server. */
  predicate Quiet(s: State, a: Action, l: nat) {
    match a
    case Tick(_) => true
    case LocalTick(_, _) => true
    case SetConnected(_) => true
    case Decide(m) => m == l
    case Claim(m, _, lost) => m == l && !lost
    case Read(m, lost) => m == l && !lost
    case ReadNothing(m) => m == l
    case ClaimFailed(m) => m == l
    case ReadFailed(m) => m == l
    case Resume(m) => m == l
    case CheckNext(m) => m == l
    case CallHandler(m) => m == l
    case AskDlq(m) => m == l
    case HandlerEvent(m, _, _) => m == l
    case HandlerReturns(m) =>
      m == l && l in s.loops && s.loops[l].pc.Handling? && s.loops[l].pc.rpc == Retry.Returned(None)
    case AutoAck(m, outcome) => m == l && outcome != AckNotDone
    case _ => false
  }

  ghost predicate QuietRun(cfg: Config, s: State, run: seq<Action>, l: nat)
    decreases |run|
  {
    && After(cfg, s, run).Some?
    && (run != [] ==>
          QuietRun(cfg, s, run[..|run| - 1], l) && Quiet(After(cfg, s, run[..|run| - 1]).value, run[|run| - 1], l))
  }

  /** The part of the batch that is not yet acknowledged. */
  function InHand(loop: Loop): seq<nat> {
    match loop.pc
    case Check(i) => if i <= |loop.batch| then loop.batch[i..] else []
    case Ready(i) => if i <= |loop.batch| then loop.batch[i..] else []
    case Handling(i, _, _) => if i <= |loop.batch| then loop.batch[i..] else []
    case Acking(i) => if i <= |loop.batch| then loop.batch[i..] else []
    case _ => []
  }

  /** Pending entries that are not in the loop's hands. */
  function Resting(s: State, l: nat): set<nat>
    requires l in s.loops
  {
    s.group.pel.Keys - (set x | x in InHand(s.loops[l]))
  }

  ghost predicate Inv(s: State, l: nat) {
    && Valid(s.group) && l in s.loops
    && var loop := s.loops[l];
    && loop.autoAck && !loop.cancelled
    && Increasing(InHand(loop))
    && Fidelity.InBatch(loop)
  }

  ghost predicate RestingIdle(cfg: Config, s: State, l: nat)
    requires l in s.loops
  {
    forall x | x in Resting(s, l) :: Idle(s.group, x, cfg.minIdle, s.clock)
  }

  /** A quiet step leaves the resting entries alone, except that a scan takes what it hands out. */
  ghost predicate Preserves(cfg: Config, s: State, a: Action, l: nat)
    requires Inv(s, l) && Enabled(cfg, s, a)
  {
    var t := Next(cfg, s, a);
    && Inv(t, l)
    && Resting(t, l) == Resting(s, l) - (if a.Claim? then set x | x in Handout(cfg, s, a) else {})
    && StampsStay(s, t, l)
  }

  /** What rests afterwards was resting before, since the same time. */
  ghost predicate StampsStay(s: State, t: State, l: nat)
    requires l in s.loops && l in t.loops
  {
    && Resting(t, l) <= Resting(s, l) && s.clock <= t.clock
    && (forall x | x in Resting(t, l) :: t.group.pel[x] == s.group.pel[x])
  }

  lemma StampsStayIdle(cfg: Config, s: State, t: State, l: nat)
    requires l in s.loops && l in t.loops && StampsStay(s, t, l) && RestingIdle(cfg, s, l)
    ensures RestingIdle(cfg, t, l)
  {
  }

  lemma ReadPreserves(cfg: Config, s: State, a: Action, l: nat)
    requires Inv(s, l) && Enabled(cfg, s, a) && Quiet(s, a, l) && a.Read?
    ensures Preserves(cfg, s, a, l)
  {
    var t := Next(cfg, s, a);
    StepKeepsValid(cfg, s, a);
    ReadNewDelivers(s.group, s.loops[l].owner, cfg.count, s.clock);
    var ids := NewIds(s.group, cfg.count);
    assert t.loops[l].batch == ids && t.loops[l].pc == Check(0);
    assert InHand(t.loops[l]) == ids;
    assert InHand(s.loops[l]) == [];
    assert Resting(t, l) == Resting(s, l);
  }

  lemma ClaimPreserves(cfg: Config, s: State, a: Action, l: nat)
    requires Inv(s, l) && Enabled(cfg, s, a) && Quiet(s, a, l) && a.Claim?
    ensures Preserves(cfg, s, a, l)
  {
    var t := Next(cfg, s, a);
    StepKeepsValid(cfg, s, a);
    ClaimsFacts(s.group, s.loops[l].cursor, a.stop, cfg.minIdle, s.clock);
    AutoClaimDelivers(s.group, s.loops[l].owner, s.loops[l].cursor, a.stop, cfg.minIdle, s.clock);
    var ids := Claims(s.group, s.loops[l].cursor, a.stop, cfg.minIdle, s.clock);
    assert t.loops[l].batch == ids && t.loops[l].pc == Check(0);
    assert InHand(t.loops[l]) == ids;
    assert InHand(s.loops[l]) == [];
    assert t.group.pel.Keys == s.group.pel.Keys;
    RestingAfterClaim(cfg, s, a, t, l);
  }

  lemma RestingAfterClaim(cfg: Config, s: State, a: Action, t: State, l: nat)
    requires l in s.loops && l in t.loops && Enabled(cfg, s, a) && a.Claim?
    requires InHand(s.loops[l]) == [] && InHand(t.loops[l]) == Handout(cfg, s, a)
    requires t.group.pel.Keys == s.group.pel.Keys && t.clock == s.clock && Valid(s.group) && Valid(t.group)
    requires forall x | x in s.group.pel && x !in Handout(cfg, s, a) :: t.group.pel[x] == s.group.pel[x]
    ensures Resting(t, l) == Resting(s, l) - (set x | x in Handout(cfg, s, a))
    ensures StampsStay(s, t, l)
  {
  }

  lemma AckPreserves(cfg: Config, s: State, a: Action, l: nat)
    requires Inv(s, l) && Enabled(cfg, s, a) && Quiet(s, a, l) && a.AutoAck?
    ensures Preserves(cfg, s, a, l)
  {
    var t := Next(cfg, s, a);
    StepKeepsValid(cfg, s, a);
    var loop := s.loops[l];
    var id := loop.batch[loop.pc.i];
    AckKeeps(s.group, id);
    assert InHand(loop) == [id] + InHand(t.loops[l]);
    HeadOfIncreasing(id, InHand(t.loops[l]));
    AckResting(s, t, l, id);
  }

  lemma HeadOfIncreasing(id: nat, rest: seq<nat>)
    requires Increasing([id] + rest)
    ensures Increasing(rest) && id !in rest
    ensures forall x :: x in [id] + rest <==> x == id || x in rest
  {
    var ids := [id] + rest;
    assert forall k | 0 <= k < |rest| :: rest[k] == ids[k + 1];
    assert ids[0] == id;
  }

  lemma AckResting(s: State, t: State, l: nat, id: nat)
    requires l in s.loops && l in t.loops && t.group.pel == s.group.pel - {id} && t.clock == s.clock
    requires forall x :: x in InHand(s.loops[l]) <==> x == id || x in InHand(t.loops[l])
    ensures Resting(t, l) == Resting(s, l) && StampsStay(s, t, l)
  {
  }

  lemma OtherPreserves(cfg: Config, s: State, a: Action, l: nat)
    requires Inv(s, l) && Enabled(cfg, s, a) && Quiet(s, a, l) && !a.Read? && !a.Claim? && !a.AutoAck?
    ensures Preserves(cfg, s, a, l)
  {
    var t := Next(cfg, s, a);
    assert t.group == s.group && t.clock >= s.clock;
    if a.CheckNext? && s.loops[l].pc.i >= |s.loops[l].batch| {
      assert InHand(s.loops[l]) == [];
    }
    assert InHand(t.loops[l]) == InHand(s.loops[l]);
  }

  lemma StepPreserves(cfg: Config, s: State, a: Action, l: nat)
    requires Inv(s, l) && Enabled(cfg, s, a) && Quiet(s, a, l)
    ensures Preserves(cfg, s, a, l)
  {
    if a.Read? {
      ReadPreserves(cfg, s, a, l);
    } else if a.Claim? {
      ClaimPreserves(cfg, s, a, l);
    } else if a.AutoAck? {
      AckPreserves(cfg, s, a, l);
    } else {
      OtherPreserves(cfg, s, a, l);
    }
  }

  /** Falls with every scan as long as something rests. */
  function Measure(s: State, l: nat): nat
    requires l in s.loops
  {
    2 * |Resting(s, l)| + (if s.loops[l].cursor > 0 then 1 else 0)
  }

  /** When every resting entry is idle, a scan that takes nothing ends the sweep. */
  lemma EmptyScanEndsSweep(cfg: Config, s: State, a: Action, l: nat)
    requires cfg.count > 0 && Inv(s, l) && RestingIdle(cfg, s, l) && Enabled(cfg, s, a) && Quiet(s, a, l) && a.Claim?
    requires Handout(cfg, s, a) == []
    ensures Next(cfg, s, a).loops[l].cursor == 0
    ensures s.loops[l].cursor == 0 ==> Resting(s, l) == {}
  {
    var c := s.loops[l].cursor;
    ClaimsFacts(s.group, c, a.stop, cfg.minIdle, s.clock);
    NextCursorFacts(s.group, a.stop);
    assert Next(cfg, s, a).loops[l].cursor == NextCursor(s.group, a.stop);
    assert InHand(s.loops[l]) == [];
    assert Resting(s, l) == s.group.pel.Keys;
    forall x | x in s.group.pel
      ensures !(c <= x < a.stop)
    {
      assert x in Resting(s, l);
      assert x !in Handout(cfg, s, a);
    }
  }

  lemma ScanLowersMeasure(cfg: Config, s: State, a: Action, l: nat)
    requires cfg.count > 0 && Inv(s, l) && RestingIdle(cfg, s, l) && Enabled(cfg, s, a) && Quiet(s, a, l) && a.Claim?
    ensures l in Next(cfg, s, a).loops
    ensures Resting(s, l) != {} ==> Measure(Next(cfg, s, a), l) < Measure(s, l)
  {
    var t := Next(cfg, s, a);
    StepPreserves(cfg, s, a, l);
    if Handout(cfg, s, a) == [] {
      EmptyScanEndsSweep(cfg, s, a, l);
      assert Resting(t, l) == Resting(s, l);
    } else {
      ScanTakesResting(cfg, s, a, l);
    }
  }

  lemma ScanTakesResting(cfg: Config, s: State, a: Action, l: nat)
    requires Inv(s, l) && Enabled(cfg, s, a) && Quiet(s, a, l) && a.Claim? && Preserves(cfg, s, a, l)
    requires Handout(cfg, s, a) != []
    ensures |Resting(Next(cfg, s, a), l)| < |Resting(s, l)|
  {
    ClaimsFacts(s.group, s.loops[l].cursor, a.stop, cfg.minIdle, s.clock);
    var x := Handout(cfg, s, a)[0];
    assert x in Handout(cfg, s, a) && x in s.group.pel && InHand(s.loops[l]) == [];
    SmallerSet(Resting(Next(cfg, s, a), l), Resting(s, l), x);
  }

  lemma {:induction false} QuietRunShrinks(cfg: Config, s: State, run: seq<Action>, l: nat)
    requires cfg.count > 0 && Inv(s, l) && RestingIdle(cfg, s, l) && QuietRun(cfg, s, run, l)
    ensures var t := After(cfg, s, run).value;
      && Inv(t, l) && RestingIdle(cfg, t, l)
      && (Resting(t, l) != {} ==> Recovery.Scans(l, run) + Measure(t, l) <= Measure(s, l))
    decreases |run|
  {
    if run == [] {
    } else {
      var n := |run| - 1;
      QuietRunShrinks(cfg, s, run[..n], l);
      QuietStepShrinks(cfg, After(cfg, s, run[..n]).value, run[n], l);
    }
  }

  lemma QuietStepShrinks(cfg: Config, s: State, a: Action, l: nat)
    requires cfg.count > 0 && Inv(s, l) && RestingIdle(cfg, s, l) && Enabled(cfg, s, a) && Quiet(s, a, l)
    ensures var t := Next(cfg, s, a);
      && Inv(t, l) && RestingIdle(cfg, t, l)
      && (Resting(t, l) != {} ==> Resting(s, l) != {})
      && (Resting(t, l) != {} ==> (if Recovery.IsScan(l, a) then 1 else 0) + Measure(t, l) <= Measure(s, l))
  {
    StepPreserves(cfg, s, a, l);
    StampsStayIdle(cfg, s, Next(cfg, s, a), l);
    if a.Claim? {
      ScanLowersMeasure(cfg, s, a, l);
    } else {
      Recovery.CursorMovesOnlyOnScan(cfg, s, a, l);
    }
  }

  /** Nothing rests that was delivered after `horizon`. */
  ghost predicate RestingSince(s: State, l: nat, horizon: int)
    requires l in s.loops
  {
    forall x | x in Resting(s, l) :: s.group.pel[x].at <= horizon
  }

  lemma {:induction false} QuietRunAges(cfg: Config, s: State, run: seq<Action>, l: nat, horizon: int)
    requires Inv(s, l) && RestingSince(s, l, horizon) && QuietRun(cfg, s, run, l)
    ensures var t := After(cfg, s, run).value;
      Inv(t, l) && RestingSince(t, l, horizon) && Resting(t, l) <= Resting(s, l)
    decreases |run|
  {
    if run == [] {
    } else {
      var n := |run| - 1;
      QuietRunAges(cfg, s, run[..n], l, horizon);
      StepPreserves(cfg, After(cfg, s, run[..n]).value, run[n], l);
    }
  }

  /** Main result. From any reachable state on, a loop that runs undisturbed, with handlers and
      acknowledgements that succeed and no new publishes, empties its group: once `minIdle` has passed, so
      that what others left pending is idle, `2 * |pending|` scans leave nothing but the batch in hand,
      provided there were reads enough to cover the undelivered entries; between two batches nothing is left
      at all. */
  lemma GroupDrains(cfg: Config, before: seq<Action>, s: State, wait: seq<Action>, mid: State, run: seq<Action>,
                    t: State, l: nat)
    requires cfg.count > 0 && After(cfg, INIT, before) == Some(s)
    requires l in s.loops && s.loops[l].autoAck && !s.loops[l].cancelled
    requires QuietRun(cfg, s, wait, l) && After(cfg, s, wait) == Some(mid) && mid.clock >= s.clock + cfg.minIdle
    requires QuietRun(cfg, mid, run, l) && After(cfg, mid, run) == Some(t)
    requires Recovery.Scans(l, run) >= 2 * |Resting(s, l)| && Recovery.Scans(l, run) > 0
    requires Reads(wait + run) * cfg.count >= Undelivered(s.group)
    ensures Undelivered(t.group) == 0
    ensures l in t.loops && forall id | id in t.group.pel :: id in InHand(t.loops[l])
    ensures InHand(t.loops[l]) == [] ==> Drained(t.group)
  {
    RestsSinceClock(cfg, before, s, l);
    ReachableInv(cfg, before, s, l);
    QuietMeansNoPublish(cfg, s, wait, l);
    QuietMeansNoPublish(cfg, mid, run, l);
    RunsConcat(cfg, s, wait, run);
    NoPublishConcat(wait, run);
    ReadsCover(cfg, s, wait + run, t);
    ScansCover(cfg, s, wait, mid, run, t, l);
    NothingRests(t, l);
  }

  lemma ReadsCover(cfg: Config, s: State, run: seq<Action>, t: State)
    requires cfg.count > 0 && Valid(s.group) && NoPublish(run) && After(cfg, s, run) == Some(t)
    requires Reads(run) * cfg.count >= Undelivered(s.group)
    ensures Valid(t.group) && Undelivered(t.group) == 0
  {
    ReadsLeaveOver(cfg, s, run, t);
    LeftOverIs(Undelivered(s.group), Reads(run), cfg.count);
  }

  lemma {:induction false} NoPublishConcat(a: seq<Action>, b: seq<Action>)
    requires NoPublish(a) && NoPublish(b)
    ensures NoPublish(a + b)
    decreases |b|
  {
    if b == [] {
      assert a + b == a;
    } else {
      assert (a + b)[..|a + b| - 1] == a + b[..|b| - 1];
      NoPublishConcat(a, b[..|b| - 1]);
    }
  }

  lemma ScansCover(cfg: Config, s: State, wait: seq<Action>, mid: State, run: seq<Action>, t: State, l: nat)
    requires cfg.count > 0 && Inv(s, l) && RestingSince(s, l, s.clock)
    requires QuietRun(cfg, s, wait, l) && After(cfg, s, wait) == Some(mid) && mid.clock >= s.clock + cfg.minIdle
    requires QuietRun(cfg, mid, run, l) && After(cfg, mid, run) == Some(t)
    requires Recovery.Scans(l, run) >= 2 * |Resting(s, l)| && Recovery.Scans(l, run) > 0
    ensures l in t.loops && Resting(t, l) == {}
  {
    QuietRunAges(cfg, s, wait, l, s.clock);
    SubsetSize(Resting(mid, l), Resting(s, l));
    QuietRunShrinks(cfg, mid, run, l);
    NoneLeft(mid, t, l, Recovery.Scans(l, run));
  }

  lemma StepKeepsIncreasing(cfg: Config, s: State, a: Action)
    requires Valid(s.group) && Enabled(cfg, s, a) && forall l | l in s.loops :: Increasing(s.loops[l].batch)
    ensures forall l | l in Next(cfg, s, a).loops :: Increasing(Next(cfg, s, a).loops[l].batch)
  {
    HandoutFacts(cfg, s, a);
    forall l | l in Next(cfg, s, a).loops
      ensures Increasing(Next(cfg, s, a).loops[l].batch)
    {
      if Mover(a) == Some(l) {
        BatchIs(cfg, s, a);
      } else {
        OthersUnmoved(cfg, s, a, l);
      }
    }
  }

  lemma {:induction false} BatchesIncrease(cfg: Config, run: seq<Action>)
    requires After(cfg, INIT, run).Some?
    ensures var s := After(cfg, INIT, run).value;
      Valid(s.group) && forall l | l in s.loops :: Increasing(s.loops[l].batch)
    decreases |run|
  {
    if run == [] {
    } else {
      var n := |run| - 1;
      var mid := After(cfg, INIT, run[..n]).value;
      BatchesIncrease(cfg, run[..n]);
      StepKeepsValid(cfg, mid, run[n]);
      StepKeepsIncreasing(cfg, mid, run[n]);
    }
  }

  lemma RestIncreases(batch: seq<nat>, i: nat)
    requires Increasing(batch) && i <= |batch|
    ensures Increasing(batch[i..])
  {
  }

  lemma ReachableInv(cfg: Config, before: seq<Action>, s: State, l: nat)
    requires After(cfg, INIT, before) == Some(s) && l in s.loops && s.loops[l].autoAck && !s.loops[l].cancelled
    ensures Inv(s, l)
  {
    BatchesIncrease(cfg, before);
    Fidelity.RunKeepsInv(cfg, before);
    assert Fidelity.HoldsOk(s, s.loops[l]);
    var pc, batch := s.loops[l].pc, s.loops[l].batch;
    if pc.Check? || pc.Ready? || pc.Handling? || pc.Acking? {
      RestIncreases(batch, pc.i);
    }
  }

  lemma RestsSinceClock(cfg: Config, before: seq<Action>, s: State, l: nat)
    requires After(cfg, INIT, before) == Some(s) && l in s.loops
    ensures RestingSince(s, l, s.clock)
  {
    PendingStamped(cfg, before);
  }

  /** Every entry has been acknowledged. */
  ghost predicate Drained(g: Group) {
    g.pel == map[] && forall id | 1 <= id <= |g.log| :: id in g.acked
  }

  /** In every run entries are stamped with a time that has been. */
  lemma {:induction false} PendingStamped(cfg: Config, run: seq<Action>)
    requires After(cfg, INIT, run).Some?
    ensures var s := After(cfg, INIT, run).value;
      Valid(s.group) && forall x | x in s.group.pel :: s.group.pel[x].at <= s.clock
    decreases |run|
  {
    if run == [] {
    } else {
      var n := |run| - 1;
      var mid := After(cfg, INIT, run[..n]).value;
      PendingStamped(cfg, run[..n]);
      StepKeepsValid(cfg, mid, run[n]);
      HandoutFacts(cfg, mid, run[n]);
    }
  }

  lemma NoneLeft(s: State, t: State, l: nat, scans: nat)
    requires l in s.loops && l in t.loops && scans >= 2 * |Resting(s, l)| && scans > 0
    requires Resting(t, l) != {} ==> scans + Measure(t, l) <= Measure(s, l)
    ensures Resting(t, l) == {}
  {
    if Resting(t, l) != {} {
      SomeElement(Resting(t, l));
    }
  }

  lemma NothingRests(t: State, l: nat)
    requires Valid(t.group) && l in t.loops && Resting(t, l) == {} && Undelivered(t.group) == 0
    ensures forall id | id in t.group.pel :: id in InHand(t.loops[l])
    ensures InHand(t.loops[l]) == [] ==> Drained(t.group)
  {
    forall id | id in t.group.pel
      ensures id in InHand(t.loops[l])
    {
      assert id !in Resting(t, l);
    }
  }

  lemma SomeElement(a: set<nat>)
    requires a != {}
    ensures |a| >= 1
  {
  }

  lemma {:induction false} QuietMeansNoPublish(cfg: Config, s: State, run: seq<Action>, l: nat)
    requires QuietRun(cfg, s, run, l)
    ensures NoPublish(run)
    decreases |run|
  {
    if run == [] {
    } else {
      var n := |run| - 1;
      QuietMeansNoPublish(cfg, s, run[..n], l);
    }
  }

  // ---- What one batch does ----

  /** Published entries that are not yet acknowledged. */
  function Outstanding(g: Group): int {
    Undelivered(g) + |g.pel|
  }

  lemma {:induction false} QuietBatch(cfg: Config, s: State, run: seq<Action>, l: nat)
    requires Inv(s, l) && QuietRun(cfg, s, run, l)
    requires forall k | 0 <= k < |run| :: !run[k].Claim? && !run[k].Read?
    ensures var t := After(cfg, s, run).value;
      Inv(t, l) && Resting(t, l) == Resting(s, l) && Undelivered(t.group) == Undelivered(s.group)
    decreases |run|
  {
    if run == [] {
    } else {
      var n := |run| - 1;
      assert forall k | 0 <= k < n :: run[..n][k] == run[k];
      QuietBatch(cfg, s, run[..n], l);
      StepPreserves(cfg, After(cfg, s, run[..n]).value, run[n], l);
    }
  }

  lemma {:induction false} RemovedSize(a: set<nat>, ids: seq<nat>)
    requires Increasing(ids) && forall x | x in ids :: x in a
    ensures |a - set x | x in ids| == |a| - |ids|
  {
    if ids == [] {
      assert a - (set x | x in ids) == a;
    } else {
      RemoveHead(a, ids[0], ids[1..]);
      assert ids == [ids[0]] + ids[1..];
      RemovedSize(a - {ids[0]}, ids[1..]);
    }
  }

  lemma RemoveHead(a: set<nat>, id: nat, rest: seq<nat>)
    requires Increasing([id] + rest) && id in a && forall x | x in rest :: x in a
    ensures Increasing(rest) && (forall x | x in rest :: x in a - {id}) && |a - {id}| == |a| - 1
    ensures a - (set x | x in [id] + rest) == (a - {id}) - set x | x in rest
  {
    HeadOfIncreasing(id, rest);
  }

  /** Handling a whole batch undisturbed lowers undelivered plus pending by exactly its length. */
  lemma BatchLowersOutstanding(cfg: Config, s: State, run: seq<Action>, t: State, l: nat)
    requires Inv(s, l) && QuietRun(cfg, s, run, l) && After(cfg, s, run) == Some(t)
    requires forall k | 0 <= k < |run| :: !run[k].Claim? && !run[k].Read?
    requires forall x | x in InHand(s.loops[l]) :: x in s.group.pel
    requires s.loops[l].pc == Check(0) && l in t.loops && InHand(t.loops[l]) == []
    ensures Outstanding(t.group) == Outstanding(s.group) - |s.loops[l].batch|
  {
    QuietBatch(cfg, s, run, l);
    assert InHand(s.loops[l]) == s.loops[l].batch;
    RestingSize(s, t, l);
  }

  lemma RestingSize(s: State, t: State, l: nat)
    requires l in s.loops && l in t.loops && Increasing(InHand(s.loops[l])) && InHand(t.loops[l]) == []
    requires forall x | x in InHand(s.loops[l]) :: x in s.group.pel
    requires Resting(t, l) == Resting(s, l)
    ensures |t.group.pel| == |s.group.pel| - |InHand(s.loops[l])|
  {
    RemovedSize(s.group.pel.Keys, InHand(s.loops[l]));
    assert Resting(t, l) == t.group.pel.Keys;
    assert |t.group.pel| == |t.group.pel.Keys| && |s.group.pel| == |s.group.pel.Keys|;
  }
}
