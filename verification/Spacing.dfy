/** How often one message can be delivered: spacing and rate on the server's clock, and delivery
    exactly once when every message is acknowledged in time. */
module Spacing {
  import opened Prelude
  import opened Streams
  import opened Delivery

  /** Any two deliveries of one id are at least `minIdle` apart. */
  ghost predicate Spaced(minIdle: int, d: seq<Delivered>) {
    forall j, k | 0 <= j < k < |d| && d[j].id == d[k].id :: d[k].at - d[j].at >= minIdle
  }

  ghost predicate Inv(cfg: Config, s: State) {
    && Valid(s.group)
    && Spaced(cfg.minIdle, s.deliveries)
    && (forall k | 0 <= k < |s.deliveries| :: Dated(s, s.deliveries[k]))
  }

  lemma LogAppends(minIdle: int, d: seq<Delivered>, ids: seq<nat>, at: int, to: nat)
    requires Spaced(minIdle, d) && Increasing(ids)
    requires forall k | 0 <= k < |d| && d[k].id in ids :: at - d[k].at >= minIdle
    ensures Spaced(minIdle, d + Log(ids, at, to))
  {
    var e := d + Log(ids, at, to);
    assert forall i | |d| <= i < |e| :: e[i] == Delivered(ids[i - |d|], at, to);
    forall j, k | 0 <= j < k < |e| && e[j].id == e[k].id
      ensures e[k].at - e[j].at >= minIdle
    {
      if j < |d| <= k {
        assert e[j] == d[j] && d[j].id == ids[k - |d|] && d[j].id in ids;
      }
    }
  }

  /** Delivery `d` is of a delivered id, is past, and no later than the id's stamp in the pending list. */
  predicate Dated(s: State, d: Delivered) {
    1 <= d.id <= s.group.last && d.at <= s.clock && (d.id in s.group.pel ==> d.at <= s.group.pel[d.id].at)
  }

  lemma StepKeepsDated(cfg: Config, s: State, a: Action, d: Delivered)
    requires Valid(s.group) && Enabled(cfg, s, a) && Dated(s, d)
    ensures Dated(Next(cfg, s, a), d)
  {
    HandoutFacts(cfg, s, a);
  }

  lemma HandoutIsDated(cfg: Config, s: State, a: Action, i: nat)
    requires Valid(s.group) && Enabled(cfg, s, a) && i < |Handout(cfg, s, a)|
    ensures Dated(Next(cfg, s, a), Delivered(Handout(cfg, s, a)[i], s.clock, a.l))
  {
    HandoutFacts(cfg, s, a);
    StepKeepsValid(cfg, s, a);
    assert Handout(cfg, s, a)[i] in Handout(cfg, s, a);
  }

  lemma HandoutIsSpaced(cfg: Config, s: State, a: Action)
    requires Inv(cfg, s) && Enabled(cfg, s, a)
    ensures Spaced(cfg.minIdle, Next(cfg, s, a).deliveries)
  {
    HandoutFacts(cfg, s, a);
    if Mover(a).Some? {
      var ids := Handout(cfg, s, a);
      forall k | 0 <= k < |s.deliveries| && s.deliveries[k].id in ids
        ensures s.clock - s.deliveries[k].at >= cfg.minIdle
      {
        assert Dated(s, s.deliveries[k]);
      }
      LogAppends(cfg.minIdle, s.deliveries, ids, s.clock, a.l);
    }
  }

  lemma StepKeepsInv(cfg: Config, s: State, a: Action)
    requires Inv(cfg, s) && Enabled(cfg, s, a)
    ensures Inv(cfg, Next(cfg, s, a))
  {
    StepKeepsValid(cfg, s, a);
    HandoutIsSpaced(cfg, s, a);
    HandoutFacts(cfg, s, a);
    var t, n := Next(cfg, s, a), |s.deliveries|;
    forall k | 0 <= k < |t.deliveries|
      ensures Dated(t, t.deliveries[k])
    {
      if k < n {
        StepKeepsDated(cfg, s, a, s.deliveries[k]);
      } else {
        HandoutIsDated(cfg, s, a, k - n);
      }
    }
  }

  lemma {:induction false} RunKeepsInv(cfg: Config, run: seq<Action>)
    requires After(cfg, INIT, run).Some?
    ensures Inv(cfg, After(cfg, INIT, run).value)
    decreases |run|
  {
    if run == [] {
    } else {
      var n := |run| - 1;
      RunKeepsInv(cfg, run[..n]);
      StepKeepsInv(cfg, After(cfg, INIT, run[..n]).value, run[n]);
    }
  }

  /** Main result. Across all consumers of the group, in any run, two deliveries of one id are at
      least `minIdle` apart on the server's clock. */
  lemma DeliveriesAreSpaced(cfg: Config, run: seq<Action>, s: State, j: nat, k: nat)
    requires After(cfg, INIT, run) == Some(s)
    requires j < k < |s.deliveries| && s.deliveries[j].id == s.deliveries[k].id
    ensures s.deliveries[k].at - s.deliveries[j].at >= cfg.minIdle
  {
    RunKeepsInv(cfg, run);
  }

  /** How many deliveries of `id` fall into the window `[from, from + width]`. */
  function Within(d: seq<Delivered>, id: nat, from: int, width: int): nat {
    if d == [] then 0
    else var n := |d| - 1;
      Within(d[..n], id, from, width) + (if d[n].id == id && from <= d[n].at <= from + width then 1 else 0)
  }

  /** The last of `c` spaced deliveries in a window comes no earlier than `(c - 1) * minIdle` after
      the window opens. */
  lemma {:induction false} LastInWindow(minIdle: int, d: seq<Delivered>, id: nat, from: int, width: int)
    returns (k: nat)
    requires minIdle >= 0 && Spaced(minIdle, d) && Within(d, id, from, width) > 0
    ensures k < |d| && d[k].id == id && d[k].at <= from + width
    ensures d[k].at >= from + (Within(d, id, from, width) - 1) * minIdle
  {
    var n := |d| - 1;
    var before := Within(d[..n], id, from, width);
    if before > 0 {
      k := LastInWindow(minIdle, d[..n], id, from, width);
      if Within(d, id, from, width) > before {
        assert d[n].at - d[k].at >= minIdle;
        Scale(before - 1, before - 1, minIdle);
        k := n;
      }
    } else {
      k := n;
    }
  }

  /** Main result. In any window of length `width` an id is delivered at most
      `1 + floor(width / minIdle)` times. */
  lemma DeliveryRateIsBounded(cfg: Config, run: seq<Action>, s: State, id: nat, from: int, width: nat)
    requires cfg.minIdle > 0 && After(cfg, INIT, run) == Some(s)
    ensures Within(s.deliveries, id, from, width) <= 1 + width / cfg.minIdle
  {
    RunKeepsInv(cfg, run);
    SpacedRate(cfg.minIdle, s.deliveries, id, from, width);
  }

  lemma SpacedRate(minIdle: int, d: seq<Delivered>, id: nat, from: int, width: nat)
    requires minIdle > 0 && Spaced(minIdle, d)
    ensures Within(d, id, from, width) <= 1 + width / minIdle
  {
    var c := Within(d, id, from, width);
    if c > 0 {
      var k := LastInWindow(minIdle, d, id, from, width);
      AtMostQuotient(c - 1, width, minIdle);
    }
  }

  lemma AtMostQuotient(c: int, w: nat, m: int)
    requires m > 0 && c * m <= w
    ensures c <= w / m
  {
    if c > w / m {
      Scale(w / m + 1, c, m);
    }
  }

  // ---- Exactly once ----

  /** No pending entry has reached the idle threshold. */
  ghost predicate Timely(cfg: Config, s: State) {
    forall id | id in s.group.pel :: s.clock - s.group.pel[id].at < cfg.minIdle
  }

  /** Every state of the run is timely: each delivered message, its wait inside a batch included, is
      acknowledged less than `minIdle` after its delivery. */
  ghost predicate TimelyRun(cfg: Config, run: seq<Action>)
    decreases |run|
  {
    && After(cfg, INIT, run).Some? && Timely(cfg, After(cfg, INIT, run).value)
    && (run != [] ==> TimelyRun(cfg, run[..|run| - 1]))
  }

  ghost predicate Distinct(d: seq<Delivered>) {
    forall j, k | 0 <= j < k < |d| :: d[j].id != d[k].id
  }

  /** `id` was handed to loop `l`. */
  ghost predicate WasGiven(s: State, id: nat, l: nat) {
    exists k :: 0 <= k < |s.deliveries| && s.deliveries[k].id == id && s.deliveries[k].to == l
  }

  ghost predicate OnceInv(s: State) {
    && Valid(s.group)
    && Distinct(s.deliveries)
    && (forall k | 0 <= k < |s.deliveries| :: s.deliveries[k].id <= s.group.last)
    && (forall l, i | l in s.loops && 0 <= i < |s.loops[l].batch| :: WasGiven(s, s.loops[l].batch[i], l))
  }

  lemma GivenGrows(s: State, t: State)
    requires s.deliveries <= t.deliveries
    ensures forall id, l | WasGiven(s, id, l) :: WasGiven(t, id, l)
  {
    forall id, l | WasGiven(s, id, l)
      ensures WasGiven(t, id, l)
    {
      var k :| 0 <= k < |s.deliveries| && s.deliveries[k].id == id && s.deliveries[k].to == l;
      assert t.deliveries[k] == s.deliveries[k];
    }
  }

  lemma LogNew(d: seq<Delivered>, ids: seq<nat>, at: int, to: nat, last: nat, newLast: nat)
    requires Distinct(d) && Increasing(ids) && last <= newLast
    requires forall k | 0 <= k < |d| :: d[k].id <= last
    requires forall x | x in ids :: last < x <= newLast
    ensures Distinct(d + Log(ids, at, to))
    ensures forall k | 0 <= k < |d + Log(ids, at, to)| :: (d + Log(ids, at, to))[k].id <= newLast
  {
    var e := d + Log(ids, at, to);
    assert forall i | |d| <= i < |e| :: e[i].id == ids[i - |d|] && ids[i - |d|] in ids;
  }

  /** In a timely state every id handed out is new. */
  lemma TimelyHandsOutNew(cfg: Config, s: State, a: Action)
    requires OnceInv(s) && Timely(cfg, s) && Enabled(cfg, s, a)
    ensures Distinct(Next(cfg, s, a).deliveries)
    ensures forall k | 0 <= k < |Next(cfg, s, a).deliveries| ::
              Next(cfg, s, a).deliveries[k].id <= Next(cfg, s, a).group.last
  {
    HandoutFacts(cfg, s, a);
    StepKeepsValid(cfg, s, a);
    var ids, t := Handout(cfg, s, a), Next(cfg, s, a);
    forall x | x in ids
      ensures s.group.last < x <= t.group.last
    {
      assert !Idle(s.group, x, cfg.minIdle, s.clock);
    }
    if Mover(a).Some? {
      LogNew(s.deliveries, ids, s.clock, a.l, s.group.last, t.group.last);
    }
  }

  lemma LogGives(t: State, d: seq<Delivered>, ids: seq<nat>, at: int, to: nat, i: nat)
    requires t.deliveries == d + Log(ids, at, to) && i < |ids|
    ensures WasGiven(t, ids[i], to)
  {
    assert t.deliveries[|d| + i] == Delivered(ids[i], at, to);
  }

  lemma HandoutWasGiven(cfg: Config, s: State, a: Action, i: nat)
    requires Valid(s.group) && Enabled(cfg, s, a) && Mover(a).Some? && i < |Handout(cfg, s, a)|
    ensures WasGiven(Next(cfg, s, a), Handout(cfg, s, a)[i], a.l)
  {
    HandoutFacts(cfg, s, a);
    LogGives(Next(cfg, s, a), s.deliveries, Handout(cfg, s, a), s.clock, a.l, i);
  }

  lemma BatchWasGiven(cfg: Config, s: State, a: Action)
    requires OnceInv(s) && Enabled(cfg, s, a) && Mover(a).Some?
    ensures a.l in Next(cfg, s, a).loops
    ensures var t := Next(cfg, s, a);
      forall i | 0 <= i < |t.loops[a.l].batch| :: WasGiven(t, t.loops[a.l].batch[i], a.l)
  {
    HandoutFacts(cfg, s, a);
    BatchIs(cfg, s, a);
    var t := Next(cfg, s, a);
    GivenGrows(s, t);
    forall i | 0 <= i < |t.loops[a.l].batch|
      ensures WasGiven(t, t.loops[a.l].batch[i], a.l)
    {
      if t.loops[a.l].batch == Handout(cfg, s, a) {
        HandoutWasGiven(cfg, s, a, i);
      } else {
        assert WasGiven(s, s.loops[a.l].batch[i], a.l);
      }
    }
  }

  lemma StepKeepsOnce(cfg: Config, s: State, a: Action)
    requires OnceInv(s) && Timely(cfg, s) && Enabled(cfg, s, a)
    ensures OnceInv(Next(cfg, s, a))
  {
    var t := Next(cfg, s, a);
    StepKeepsValid(cfg, s, a);
    TimelyHandsOutNew(cfg, s, a);
    HandoutFacts(cfg, s, a);
    GivenGrows(s, t);
    forall l, i | l in t.loops && 0 <= i < |t.loops[l].batch|
      ensures WasGiven(t, t.loops[l].batch[i], l)
    {
      if Mover(a) == Some(l) {
        BatchWasGiven(cfg, s, a);
      } else {
        OthersUnmoved(cfg, s, a, l);
      }
    }
  }

  lemma {:induction false} TimelyRunKeepsOnce(cfg: Config, run: seq<Action>)
    requires TimelyRun(cfg, run)
    ensures OnceInv(After(cfg, INIT, run).value)
    decreases |run|
  {
    if run == [] {
    } else {
      var n := |run| - 1;
      TimelyRunKeepsOnce(cfg, run[..n]);
      StepKeepsOnce(cfg, After(cfg, INIT, run[..n]).value, run[n]);
    }
  }

  /** Main result. In a timely run no id is ever delivered twice, and no two loops ever hold the
      same id, so no two handlers run on one message. */
  lemma TimelyMeansExactlyOnce(cfg: Config, run: seq<Action>, s: State)
    requires TimelyRun(cfg, run) && After(cfg, INIT, run) == Some(s)
    ensures forall j, k | 0 <= j < k < |s.deliveries| :: s.deliveries[j].id != s.deliveries[k].id
    ensures forall l, m, i, j | l in s.loops && m in s.loops && l != m
              && 0 <= i < |s.loops[l].batch| && 0 <= j < |s.loops[m].batch| ::
              s.loops[l].batch[i] != s.loops[m].batch[j]
  {
    TimelyRunKeepsOnce(cfg, run);
    forall l, m, i, j | l in s.loops && m in s.loops && l != m
      && 0 <= i < |s.loops[l].batch| && 0 <= j < |s.loops[m].batch|
      ensures s.loops[l].batch[i] != s.loops[m].batch[j]
    {
      assert WasGiven(s, s.loops[l].batch[i], l) && WasGiven(s, s.loops[m].batch[j], m);
    }
  }
}
