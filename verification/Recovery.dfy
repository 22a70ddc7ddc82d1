/** Abandoned messages are recovered: what the persistent cursor of a consumer loop guarantees. */
module Recovery {
  import opened Prelude
  import opened Streams
  import opened Delivery

  /** A scan of loop `l` whose reply arrived. */
  predicate IsScan(l: nat, a: Action) {
    a.Claim? && a.l == l && !a.replyLost
  }

  function Scans(l: nat, run: seq<Action>): nat {
    if run == [] then 0 else Scans(l, run[..|run| - 1]) + (if IsScan(l, run[|run| - 1]) then 1 else 0)
  }

  /** The cursor of a loop changes only on a scan whose reply arrived. */
  lemma CursorMovesOnlyOnScan(cfg: Config, s: State, a: Action, l: nat)
    requires l in s.loops && Enabled(cfg, s, a) && !IsScan(l, a)
    ensures l in Next(cfg, s, a).loops && Next(cfg, s, a).loops[l].cursor == s.loops[l].cursor
  {
  }

  /** `id` stayed pending through the step and was not handed out by it. */
  ghost predicate Untouched(cfg: Config, s: State, a: Action, id: nat)
    requires Enabled(cfg, s, a)
  {
    id in s.group.pel && id in Next(cfg, s, a).group.pel && id !in Handout(cfg, s, a)
  }

  /** One scan either hands out an idle entry or moves the cursor on: strictly up to at most the
      entry if the cursor had not passed it, and up or back to the start if it had. */
  lemma ScanMovesOn(cfg: Config, s: State, a: Action, l: nat, id: nat)
    requires Valid(s.group) && cfg.count > 0 && Enabled(cfg, s, a) && IsScan(l, a)
    requires Idle(s.group, id, cfg.minIdle, s.clock) && Untouched(cfg, s, a, id)
    ensures var c, c' := s.loops[l].cursor, Next(cfg, s, a).loops[l].cursor;
      && (c <= id ==> c < c' <= id)
      && (c > id ==> c' == 0 || c < c' <= s.group.last)
  {
    var c := s.loops[l].cursor;
    ClaimsFacts(s.group, c, a.stop, cfg.minIdle, s.clock);
    NextCursorFacts(s.group, a.stop);
    assert Next(cfg, s, a).loops[l].cursor == NextCursor(s.group, a.stop);
  }

  /** Some step of the run hands `id` out again or acknowledges it. */
  ghost predicate Recovered(cfg: Config, s: State, run: seq<Action>, id: nat)
    requires After(cfg, s, run).Some?
    decreases |run|
  {
    && run != []
    && var n := |run| - 1;
    && var mid := After(cfg, s, run[..n]).value;
    && (Recovered(cfg, s, run[..n], id) || (id in mid.group.pel && !Untouched(cfg, mid, run[n], id)))
  }

  /** Completed sweeps of loop `l`: scans that return `0-0`. */
  ghost function Wraps(cfg: Config, s: State, run: seq<Action>, l: nat): nat
    requires After(cfg, s, run).Some?
    decreases |run|
  {
    if run == [] then 0
    else
      var t := After(cfg, s, run).value;
      Wraps(cfg, s, run[..|run| - 1], l)
      + (if IsScan(l, run[|run| - 1]) && l in t.loops && t.loops[l].cursor == 0 then 1 else 0)
  }

  /** What a run that does not recover `id` keeps. */
  lemma {:induction false} NeglectKeepsIdle(cfg: Config, s: State, run: seq<Action>, l: nat, id: nat)
    requires Valid(s.group) && l in s.loops && Idle(s.group, id, cfg.minIdle, s.clock)
    requires After(cfg, s, run).Some? && !Recovered(cfg, s, run, id)
    ensures var t := After(cfg, s, run).value;
      Valid(t.group) && l in t.loops && Idle(t.group, id, cfg.minIdle, t.clock)
    decreases |run|
  {
    if run == [] {
    } else {
      var n := |run| - 1;
      NeglectKeepsIdle(cfg, s, run[..n], l, id);
      var mid := After(cfg, s, run[..n]).value;
      StepKeepsValid(cfg, mid, run[n]);
      HandoutFacts(cfg, mid, run[n]);
      LoopsStay(cfg, mid, run[n], l);
    }
  }

  lemma LoopsStay(cfg: Config, s: State, a: Action, l: nat)
    requires Enabled(cfg, s, a) && l in s.loops
    ensures l in Next(cfg, s, a).loops
  {
  }

  /** Scans that loop `l` can still make without handing out `id`, when its cursor is `c` and ids
      go up to `top`: those until the sweep wraps, and those of the next sweep up to the entry. */
  function Left(c: nat, id: nat, top: nat): nat {
    if c <= id then id - c else Max(0, top - c) + 1 + id
  }

  /** Each scan uses up one; wrapping around is possible only once, and only from past the entry. */
  lemma {:induction false} NeglectUsesUp(cfg: Config, s: State, run: seq<Action>, l: nat, id: nat, top: nat)
    requires Valid(s.group) && cfg.count > 0 && l in s.loops && Idle(s.group, id, cfg.minIdle, s.clock)
    requires After(cfg, s, run).Some? && !Recovered(cfg, s, run, id) && After(cfg, s, run).value.group.last <= top
    ensures l in After(cfg, s, run).value.loops
    ensures var c, c' := s.loops[l].cursor, After(cfg, s, run).value.loops[l].cursor;
      && Scans(l, run) + Left(c', id, top) <= Left(c, id, top)
      && Wraps(cfg, s, run, l) + (if c' > id then 1 else 0) <= (if c > id then 1 else 0)
    decreases |run|
  {
    if run == [] {
    } else {
      var n := |run| - 1;
      var mid, a := After(cfg, s, run[..n]).value, run[n];
      NeglectKeepsIdle(cfg, s, run[..n], l, id);
      HandoutFacts(cfg, mid, a);
      NeglectUsesUp(cfg, s, run[..n], l, id, top);
      if IsScan(l, a) {
        ScanMovesOn(cfg, mid, a, l, id);
      } else {
        CursorMovesOnlyOnScan(cfg, mid, a, l);
      }
    }
  }

  /** Main result. Whatever publishers, other loops and crashes do meanwhile, an idle pending entry
      does not survive many scans of any one loop: after more successful scans than there are
      delivered ids past the loop's cursor, plus the entry's own position, it has been handed out
      again or acknowledged. */
  lemma IdleEntryIsRecovered(cfg: Config, s: State, run: seq<Action>, t: State, l: nat, id: nat)
    requires Valid(s.group) && cfg.count > 0 && l in s.loops && After(cfg, s, run) == Some(t)
    requires id in s.group.pel && s.clock - s.group.pel[id].at >= cfg.minIdle
    requires Scans(l, run) > Max(0, t.group.last - s.loops[l].cursor) + 1 + id
    ensures Recovered(cfg, s, run, id)
  {
    if !Recovered(cfg, s, run, id) {
      NeglectUsesUp(cfg, s, run, l, id, t.group.last);
    }
  }

  /** Main result. An entry that is idle when a loop's cursor stands at `0-0` is recovered by the
      end of that sweep, and in fact within `id` further scans; an entry that becomes idle in the
      middle of a sweep is recovered by the end of the next one. */
  lemma SweepsRecover(cfg: Config, s: State, run: seq<Action>, t: State, l: nat, id: nat)
    requires Valid(s.group) && cfg.count > 0 && l in s.loops && After(cfg, s, run) == Some(t)
    requires id in s.group.pel && s.clock - s.group.pel[id].at >= cfg.minIdle
    ensures s.loops[l].cursor == 0 && (Wraps(cfg, s, run, l) >= 1 || Scans(l, run) > id) ==> Recovered(cfg, s, run, id)
    ensures Wraps(cfg, s, run, l) >= 2 ==> Recovered(cfg, s, run, id)
  {
    if !Recovered(cfg, s, run, id) {
      NeglectUsesUp(cfg, s, run, l, id, t.group.last);
    }
  }

  // ---- The end of a sweep ----

  /** The pending entries that a sweep with its cursor at `c` has still to examine. */
  function Ahead(g: Group, c: nat): set<nat> {
    set x | x in g.pel && x >= c
  }

  /** A scan that does not end the sweep leaves behind at least one of them. */
  lemma ScanLeavesBehind(cfg: Config, s: State, a: Action, l: nat)
    requires Valid(s.group) && cfg.count > 0 && Enabled(cfg, s, a) && IsScan(l, a)
    ensures var c, c' := s.loops[l].cursor, Next(cfg, s, a).loops[l].cursor;
      && Next(cfg, s, a).group.last == s.group.last
      && (c' != 0 ==> |Ahead(Next(cfg, s, a).group, c')| < |Ahead(s.group, c)|)
  {
    var c, t := s.loops[l].cursor, Next(cfg, s, a);
    NextCursorFacts(s.group, a.stop);
    AutoClaimDelivers(s.group, s.loops[l].owner, c, a.stop, cfg.minIdle, s.clock);
    assert t.loops[l].cursor == NextCursor(s.group, a.stop);
    assert t.group.pel.Keys == s.group.pel.Keys;
    if t.loops[l].cursor != 0 {
      var x :| x in s.group.pel && c <= x < a.stop;
      SmallerSet(Ahead(t.group, t.loops[l].cursor), Ahead(s.group, c), x);
    }
  }

  /** Between scans only newly delivered entries can add to them. */
  lemma OthersAddNew(cfg: Config, s: State, a: Action, c: nat)
    requires Valid(s.group) && Enabled(cfg, s, a)
    ensures s.group.last <= Next(cfg, s, a).group.last
    ensures |Ahead(Next(cfg, s, a).group, c)| <= |Ahead(s.group, c)| + (Next(cfg, s, a).group.last - s.group.last)
  {
    var t := Next(cfg, s, a);
    HandoutFacts(cfg, s, a);
    StepKeepsValid(cfg, s, a);
    var added := Above(s.group.last, t.group.last);
    assert Ahead(t.group, c) <= Ahead(s.group, c) + added;
    SubsetSize(Ahead(t.group, c), Ahead(s.group, c) + added);
  }

  /** Main result. A sweep ends: until it wraps around, each successful scan of the loop uses up one of
      the pending entries that lay at or past the cursor when the sweep began, or one delivered since. A
      positive batch count is what makes every scan move on. */
  lemma {:induction false} SweepEnds(cfg: Config, s: State, run: seq<Action>, l: nat)
    requires Valid(s.group) && cfg.count > 0 && l in s.loops
    requires After(cfg, s, run).Some? && Wraps(cfg, s, run, l) == 0
    ensures Valid(After(cfg, s, run).value.group) && l in After(cfg, s, run).value.loops
    ensures var t := After(cfg, s, run).value;
      Scans(l, run) + |Ahead(t.group, t.loops[l].cursor)|
      <= |Ahead(s.group, s.loops[l].cursor)| + (t.group.last - s.group.last)
    decreases |run|
  {
    if run == [] {
    } else {
      var n := |run| - 1;
      var mid, a := After(cfg, s, run[..n]).value, run[n];
      SweepEnds(cfg, s, run[..n], l);
      StepKeepsValid(cfg, mid, a);
      LoopsStay(cfg, mid, a, l);
      if IsScan(l, a) {
        ScanLeavesBehind(cfg, mid, a, l);
      } else {
        CursorMovesOnlyOnScan(cfg, mid, a, l);
        OthersAddNew(cfg, mid, a, mid.loops[l].cursor);
      }
    }
  }

  // ---- Which entries a scan can take ----

  /** The scan of loop `l` up to `stop` may happen and hands out `id`. */
  ghost predicate ScanTakes(cfg: Config, s: State, l: nat, stop: nat, id: nat) {
    Enabled(cfg, s, Claim(l, stop, false)) && id in Handout(cfg, s, Claim(l, stop, false))
  }

  lemma TakenIsClaimable(cfg: Config, s: State, l: nat, stop: nat, id: nat)
    requires cfg.count > 0 && Valid(s.group) && ScanTakes(cfg, s, l, stop, id)
    ensures var c := s.loops[l].cursor;
      && c <= id && Idle(s.group, id, cfg.minIdle, s.clock)
      && |Claims(s.group, c, id, cfg.minIdle, s.clock)| < cfg.count
  {
    var c := s.loops[l].cursor;
    ClaimsFacts(s.group, c, stop, cfg.minIdle, s.clock);
    ClaimsSplit(s.group, c, id, stop, cfg.minIdle, s.clock);
    assert Claims(s.group, id, stop, cfg.minIdle, s.clock) != [];
  }

  lemma ClaimableIsLegal(g: Group, c: nat, id: nat, count: int, minIdle: int, now: int)
    requires c <= id && Idle(g, id, minIdle, now) && |Claims(g, c, id, minIdle, now)| < count
    ensures LegalScan(g, c, id + 1, count, minIdle, now) && id in Claims(g, c, id + 1, minIdle, now)
  {
    ClaimsSplit(g, c, id, id + 1, minIdle, now);
    assert Claims(g, id + 1, id + 1, minIdle, now) == [];
    assert Claims(g, id, id + 1, minIdle, now) == [id];
  }

  lemma ClaimableIsTaken(cfg: Config, s: State, l: nat, id: nat)
    requires At(s, l, AtClaim) && s.loops[l].cursor <= id && Idle(s.group, id, cfg.minIdle, s.clock)
    requires |Claims(s.group, s.loops[l].cursor, id, cfg.minIdle, s.clock)| < cfg.count
    ensures ScanTakes(cfg, s, l, id + 1, id)
  {
    ClaimableIsLegal(s.group, s.loops[l].cursor, id, cfg.count, cfg.minIdle, s.clock);
  }

  /** The next scan of a loop can hand out a pending entry, whoever owned it, if and only if the entry
      is idle, the cursor has not passed it, and fewer than a batch of idle entries lie between. */
  lemma ClaimableIff(cfg: Config, s: State, l: nat, id: nat)
    requires cfg.count > 0 && Valid(s.group) && At(s, l, AtClaim)
    ensures (exists stop :: ScanTakes(cfg, s, l, stop, id)) <==>
            && s.loops[l].cursor <= id && id in s.group.pel && s.clock - s.group.pel[id].at >= cfg.minIdle
            && |Claims(s.group, s.loops[l].cursor, id, cfg.minIdle, s.clock)| < cfg.count
  {
    if exists stop :: ScanTakes(cfg, s, l, stop, id) {
      var stop :| ScanTakes(cfg, s, l, stop, id);
      TakenIsClaimable(cfg, s, l, stop, id);
    }
    if && s.loops[l].cursor <= id && Idle(s.group, id, cfg.minIdle, s.clock)
       && |Claims(s.group, s.loops[l].cursor, id, cfg.minIdle, s.clock)| < cfg.count {
      ClaimableIsTaken(cfg, s, l, id);
    }
  }
}
