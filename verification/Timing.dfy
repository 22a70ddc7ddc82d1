/** How soon a consumer loop of the delivery protocol scans again, and so how soon an abandoned message
    is recovered, on the loop's own clock (`broker/redis/redis.go`, `consumeLoop`). */
module Timing {
  import opened Prelude
  import opened Streams
  import opened Delivery
  import Recovery

  predicate WorksOnBatch(pc: Pc) {
    pc.Check? || pc.Ready? || pc.Handling? || pc.Acking?
  }

  /** From the decision to scan until the end of the batch that the scan brought. The rest of a round,
      from the read to the next decision, is its reading part. */
  predicate Scanning(loop: Loop) {
    loop.pc == AtClaim || (WorksOnBatch(loop.pc) && loop.src == FromClaim)
  }

  /** The step begins the scanning or the reading part of a round. */
  predicate Begins(before: Loop, after: Loop) {
    (after.pc == AtClaim || after.pc == AtRead) && before.pc != after.pc
  }

  /** When the loop began the part of the round that it is in. */
  ghost function Began(cfg: Config, s: State, run: seq<Action>, l: nat): int
    requires After(cfg, s, run).Some? && l in s.loops
    decreases |run|
  {
    if run == [] then s.loops[l].now
    else
      var mid, t := After(cfg, s, run[..|run| - 1]).value, After(cfg, s, run).value;
      if l in mid.loops && l in t.loops && Begins(mid.loops[l], t.loops[l]) then t.loops[l].now
      else Began(cfg, s, run[..|run| - 1], l)
  }

  /** A scan that failed, or whose reply was lost. */
  predicate ScanFails(l: nat, a: Action) {
    a == ClaimFailed(l) || (a.Claim? && a.l == l && a.replyLost)
  }

  function Fails(l: nat, run: seq<Action>): nat {
    if run == [] then 0 else Fails(l, run[..|run| - 1]) + (if ScanFails(l, run[|run| - 1]) then 1 else 0)
  }

  /** At every moment of the run the loop lives, and it has spent no more than `scan` on a scanning part,
      whether the scan succeeded or not, and no more than `read` on a reading part: the block time and the
      handling of a batch, or the second of pause. */
  ghost predicate Prompt(cfg: Config, s: State, run: seq<Action>, l: nat, read: nat, scan: nat)
    decreases |run|
  {
    && After(cfg, s, run).Some? && l in s.loops
    && var t := After(cfg, s, run).value;
    && l in t.loops && Live(t.loops[l])
    && t.loops[l].now - Began(cfg, s, run, l) <= (if Scanning(t.loops[l]) then scan else read)
    && (run != [] ==> Prompt(cfg, s, run[..|run| - 1], l, read, scan))
  }

  // ---- What one step does ----

  predicate SamePart(before: Loop, after: Loop) {
    && !Begins(before, after) && (Scanning(before) <==> Scanning(after))
    && after.nextClaim == before.nextClaim
  }

  predicate DecidesPart(before: Loop, after: Loop) {
    && !Scanning(before) && Begins(before, after)
    && after.now == before.now && after.nextClaim == before.nextClaim
    && (Scanning(after) <==> before.now >= before.nextClaim)
  }

  predicate EndsScan(cfg: Config, before: Loop, after: Loop) {
    && Scanning(before) && !Scanning(after) && Begins(before, after)
    && after.now == before.now && after.nextClaim == after.now + cfg.interval
  }

  lemma OwnStepMoves(cfg: Config, s: State, a: Action, l: nat)
    requires Enabled(cfg, s, a) && Mover(a) == Some(l) && l in s.loops && l in Next(cfg, s, a).loops
    requires Live(Next(cfg, s, a).loops[l])
    ensures var b, c := s.loops[l], Next(cfg, s, a).loops[l];
      SamePart(b, c) || DecidesPart(b, c) || EndsScan(cfg, b, c)
  {
  }

  /** The step is a scan, successful or not. */
  predicate TriesScan(l: nat, a: Action) {
    Recovery.IsScan(l, a) || ScanFails(l, a)
  }

  /** Scans whose batch is still in hand. */
  function Open(loop: Loop): nat {
    if Scanning(loop) && loop.pc != AtClaim then 1 else 0
  }

  lemma OwnStepOpens(cfg: Config, s: State, a: Action, l: nat)
    requires Enabled(cfg, s, a) && Mover(a) == Some(l) && l in s.loops && l in Next(cfg, s, a).loops
    requires Live(Next(cfg, s, a).loops[l])
    ensures var b, c := s.loops[l], Next(cfg, s, a).loops[l];
      Open(c) + (if EndsScan(cfg, b, c) then 1 else 0)
      == Open(b) + (if TriesScan(l, a) then 1 else 0)
  {
  }

  lemma StepMoves(cfg: Config, s: State, a: Action, l: nat)
    requires Enabled(cfg, s, a) && l in s.loops
    requires l in Next(cfg, s, a).loops && Live(Next(cfg, s, a).loops[l])
    ensures var b, c := s.loops[l], Next(cfg, s, a).loops[l];
      && (SamePart(b, c) || DecidesPart(b, c) || EndsScan(cfg, b, c))
      && Open(c) + (if EndsScan(cfg, b, c) then 1 else 0) == Open(b) + (if TriesScan(l, a) then 1 else 0)
  {
    if Mover(a) == Some(l) {
      OwnStepMoves(cfg, s, a, l);
      OwnStepOpens(cfg, s, a, l);
    } else {
      OthersUnmoved(cfg, s, a, l);
    }
  }

  // ---- Between two scans ----

  /** When the last scanning part of the run ended, if one did: the handling of its batch, or its failure. */
  ghost function LastEnd(cfg: Config, s: State, run: seq<Action>, l: nat): Option<int>
    requires After(cfg, s, run).Some?
    decreases |run|
  {
    if run == [] then None
    else
      var mid, t := After(cfg, s, run[..|run| - 1]).value, After(cfg, s, run).value;
      if l in mid.loops && l in t.loops && EndsScan(cfg, mid.loops[l], t.loops[l]) then Some(t.loops[l].now)
      else LastEnd(cfg, s, run[..|run| - 1], l)
  }

  /** The schedule: the next scan is due one interval after the last one ended, and the reading part that
      is going on began before that. */
  lemma {:induction false} Scheduled(cfg: Config, s: State, run: seq<Action>, l: nat, read: nat, scan: nat)
    requires cfg.interval > 0 && Prompt(cfg, s, run, l, read, scan)
    ensures var t := After(cfg, s, run).value;
      LastEnd(cfg, s, run, l).Some? ==>
        && t.loops[l].nextClaim == LastEnd(cfg, s, run, l).value + cfg.interval
        && (!Scanning(t.loops[l]) ==> Began(cfg, s, run, l) < t.loops[l].nextClaim)
    decreases |run|
  {
    if run == [] {
    } else {
      var n := |run| - 1;
      Scheduled(cfg, s, run[..n], l, read, scan);
      StepMoves(cfg, After(cfg, s, run[..n]).value, run[n], l);
    }
  }

  /** Main result. Whenever the loop decides to scan, its last scan, batch included, ended at least the claim
      interval ago, and less than that plus the time of one reading part: recovery goes on whether or not
      there is traffic. */
  lemma ScansAreRegular(cfg: Config, s: State, run: seq<Action>, t: State, l: nat, read: nat, scan: nat)
    requires cfg.interval > 0 && Prompt(cfg, s, run, l, read, scan) && After(cfg, s, run) == Some(t)
    requires LastEnd(cfg, s, run, l).Some?
    requires At(t, l, Top) && Enabled(cfg, t, Decide(l)) && At(Next(cfg, t, Decide(l)), l, AtClaim)
    ensures var since := t.loops[l].now - LastEnd(cfg, s, run, l).value;
      cfg.interval <= since < cfg.interval + read
  {
    Scheduled(cfg, s, run, l, read, scan);
  }

  // ---- How many scans a time brings ----

  ghost function EndedScans(cfg: Config, s: State, run: seq<Action>, l: nat): nat
    requires After(cfg, s, run).Some?
    decreases |run|
  {
    if run == [] then 0
    else
      var mid, t := After(cfg, s, run[..|run| - 1]).value, After(cfg, s, run).value;
      EndedScans(cfg, s, run[..|run| - 1], l)
      + (if l in mid.loops && l in t.loops && EndsScan(cfg, mid.loops[l], t.loops[l]) then 1 else 0)
  }

  /** `base` and `k` full periods. */
  function Due(base: int, k: nat, period: int): int {
    if k == 0 then base else Due(base, k - 1, period) + period
  }

  lemma {:induction false} DueIs(base: int, k: nat, period: nat)
    ensures Due(base, k, period) == base + k * period
  {
    if k == 0 {
    } else {
      DueIs(base, k - 1, period);
      Scale(k - 1, k - 1, period);
    }
  }

  lemma {:induction false} DueGrows(base: int, j: nat, k: nat, period: nat)
    requires j <= k
    ensures Due(base, j, period) <= Due(base, k, period)
    decreases k
  {
    if j == k {
    } else {
      DueGrows(base, j, k - 1, period);
    }
  }

  /** After `k` scans the loop is never later than `due`, which allows each of them a scanning part, a
      reading part and the interval. */
  ghost predicate OnTime(loop: Loop, began: int, due: int, read: nat) {
    loop.nextClaim <= due && began <= due + (if Scanning(loop) then read else 0)
  }

  lemma StepStaysOnTime(cfg: Config, b: Loop, c: Loop, began: int, due: int, read: nat, scan: nat)
    requires OnTime(b, began, due, read) && cfg.interval > 0
    requires b.now - began <= (if Scanning(b) then scan else read)
    requires SamePart(b, c) || DecidesPart(b, c) || EndsScan(cfg, b, c)
    ensures var began' := if Begins(b, c) then c.now else began;
      OnTime(c, began', if EndsScan(cfg, b, c) then due + (read + scan + cfg.interval) else due, read)
  {
  }

  /** What the last step of a prompt run does to the quantities measured. */
  lemma LastStep(cfg: Config, s: State, run: seq<Action>, l: nat, read: nat, scan: nat)
    requires run != [] && Prompt(cfg, s, run, l, read, scan)
    ensures var n := |run| - 1;
      && Prompt(cfg, s, run[..n], l, read, scan)
      && var b, c := After(cfg, s, run[..n]).value.loops[l], After(cfg, s, run).value.loops[l];
      && (SamePart(b, c) || DecidesPart(b, c) || EndsScan(cfg, b, c))
      && b.now - Began(cfg, s, run[..n], l) <= (if Scanning(b) then scan else read)
      && Began(cfg, s, run, l) == (if Begins(b, c) then c.now else Began(cfg, s, run[..n], l))
      && EndedScans(cfg, s, run, l) == EndedScans(cfg, s, run[..n], l) + (if EndsScan(cfg, b, c) then 1 else 0)
  {
    StepMoves(cfg, After(cfg, s, run[..|run| - 1]).value, run[|run| - 1], l);
  }

  /** The state of affairs after a prompt run. */
  ghost predicate RunOnTime(cfg: Config, s: State, run: seq<Action>, l: nat, read: nat, due: int)
    requires After(cfg, s, run).Some? && l in s.loops && l in After(cfg, s, run).value.loops
  {
    OnTime(After(cfg, s, run).value.loops[l], Began(cfg, s, run, l), due, read)
  }

  /** As long as no more than `k` scans have ended, the loop is not later than `k` periods allow. */
  lemma {:induction false} StaysOnTime(cfg: Config, s: State, run: seq<Action>, l: nat, read: nat, scan: nat, base: int,
                                       k: nat)
    requires cfg.interval > 0 && Prompt(cfg, s, run, l, read, scan) && EndedScans(cfg, s, run, l) <= k
    requires OnTime(s.loops[l], s.loops[l].now, base, read)
    ensures RunOnTime(cfg, s, run, l, read, Due(base, k, read + scan + cfg.interval))
    decreases |run|
  {
    if run == [] {
      DueGrows(base, 0, k, read + scan + cfg.interval);
    } else {
      var n := |run| - 1;
      LastStep(cfg, s, run, l, read, scan);
      var b, c := After(cfg, s, run[..n]).value.loops[l], After(cfg, s, run).value.loops[l];
      var j := if EndsScan(cfg, b, c) then k - 1 else k;
      StaysOnTime(cfg, s, run[..n], l, read, scan, base, j);
      StepStaysOnTime(cfg, b, c, Began(cfg, s, run[..n], l), Due(base, j, read + scan + cfg.interval), read, scan);
    }
  }

  lemma {:induction false} ScansAreCounted(cfg: Config, s: State, run: seq<Action>, l: nat, read: nat, scan: nat)
    requires Prompt(cfg, s, run, l, read, scan) && Open(s.loops[l]) == 0
    ensures EndedScans(cfg, s, run, l) + Open(After(cfg, s, run).value.loops[l])
         == Recovery.Scans(l, run) + Fails(l, run)
    decreases |run|
  {
    if run == [] {
    } else {
      var n := |run| - 1;
      ScansAreCounted(cfg, s, run[..n], l, read, scan);
      StepMoves(cfg, After(cfg, s, run[..n]).value, run[n], l);
    }
  }

  lemma EnoughEnded(cfg: Config, s: State, run: seq<Action>, t: State, l: nat, read: nat, scan: nat, base: int, n: nat)
    requires cfg.interval > 0 && Prompt(cfg, s, run, l, read, scan) && After(cfg, s, run) == Some(t)
    requires OnTime(s.loops[l], s.loops[l].now, base, read)
    requires t.loops[l].now > Due(base, n, read + scan + cfg.interval) + (read + scan)
    ensures EndedScans(cfg, s, run, l) > n
  {
    if EndedScans(cfg, s, run, l) <= n {
      StaysOnTime(cfg, s, run, l, read, scan, base, n);
      assert false;
    }
  }

  /** A prompt loop that starts a round and whose next scan is due by `base` tries more than `n` scans by the
      time `n` periods of scanning, reading and waiting have passed since, and one more scanning and reading
      part; `DueIs` says what `Due` adds up to. */
  lemma ScansFrom(cfg: Config, s: State, run: seq<Action>, t: State, l: nat, read: nat, scan: nat, base: int, n: nat)
    requires cfg.interval > 0 && Prompt(cfg, s, run, l, read, scan) && After(cfg, s, run) == Some(t)
    requires s.loops[l].pc == Top && s.loops[l].nextClaim <= base && s.loops[l].now <= base
    requires t.loops[l].now > Due(base, n, read + scan + cfg.interval) + (read + scan)
    ensures Recovery.Scans(l, run) + Fails(l, run) > n
  {
    EnoughEnded(cfg, s, run, t, l, read, scan, base, n);
    ScansAreCounted(cfg, s, run, l, read, scan);
  }

  /** An idle entry is recovered by the time that enough periods have passed since the next scan was due. */
  lemma RecoveredWhenDue(cfg: Config, s: State, run: seq<Action>, t: State, l: nat, id: nat, read: nat, scan: nat,
                         base: int, n: nat)
    requires Valid(s.group) && cfg.count > 0 && cfg.interval > 0
    requires Prompt(cfg, s, run, l, read, scan) && After(cfg, s, run) == Some(t)
    requires s.loops[l].pc == Top && s.loops[l].nextClaim <= base && s.loops[l].now <= base
    requires Idle(s.group, id, cfg.minIdle, s.clock)
    requires n == Max(0, t.group.last - s.loops[l].cursor) + 1 + id + Fails(l, run)
    requires t.loops[l].now > Due(base, n, read + scan + cfg.interval) + (read + scan)
    ensures Recovery.Recovered(cfg, s, run, id)
  {
    ScansFrom(cfg, s, run, t, l, read, scan, base, n);
    Recovery.IdleEntryIsRecovered(cfg, s, run, t, l, id);
  }

  /** What a reachable state knows about the schedule of a loop. */
  lemma ReachableSchedule(cfg: Config, before: seq<Action>, s: State, l: nat)
    requires cfg.interval > 0 && After(cfg, INIT, before) == Some(s) && l in s.loops
    ensures Valid(s.group) && s.loops[l].nextClaim <= s.loops[l].now + cfg.interval
  {
    NextScanIsNear(cfg, before, l);
    ReachableIsValid(cfg, before);
  }

  /** Main result. An idle entry of a reachable state is recovered in bounded time: when the clock of a prompt
      loop that was about to start a round has advanced by the interval, one period of reading, scanning and
      waiting for each scan that `Recovery.IdleEntryIsRecovered` allows it and for each that failed, and a last
      scan and read, the
      entry has been handed out again or acknowledged. `DeadlineIs` has this bound in numbers. */
  lemma RecoveredInTime(cfg: Config, before: seq<Action>, s: State, run: seq<Action>, t: State, l: nat, id: nat,
                        read: nat, scan: nat, base: int, n: nat)
    requires cfg.count > 0 && cfg.interval > 0 && After(cfg, INIT, before) == Some(s)
    requires Prompt(cfg, s, run, l, read, scan) && After(cfg, s, run) == Some(t) && s.loops[l].pc == Top
    requires id in s.group.pel && s.clock - s.group.pel[id].at >= cfg.minIdle
    requires n == Max(0, t.group.last - s.loops[l].cursor) + 1 + id + Fails(l, run)
    requires base == s.loops[l].now + cfg.interval
    requires t.loops[l].now > Due(base, n, read + scan + cfg.interval) + (read + scan)
    ensures Recovery.Recovered(cfg, s, run, id)
  {
    ReachableSchedule(cfg, before, s, l);
    RecoveredWhenDue(cfg, s, run, t, l, id, read, scan, base, n);
  }

  /** Main result. From any reachable state in which a prompt loop is about to start a round, it tries more than
      `n` scans in any time longer than the bound of `DeadlineIs`. */
  lemma TimeBringsScans(cfg: Config, before: seq<Action>, s: State, run: seq<Action>, t: State, l: nat,
                        read: nat, scan: nat, base: int, n: nat)
    requires cfg.interval > 0 && After(cfg, INIT, before) == Some(s)
    requires Prompt(cfg, s, run, l, read, scan) && After(cfg, s, run) == Some(t) && s.loops[l].pc == Top
    requires base == s.loops[l].now + cfg.interval
    requires t.loops[l].now > Due(base, n, read + scan + cfg.interval) + (read + scan)
    ensures Recovery.Scans(l, run) + Fails(l, run) > n
  {
    ReachableSchedule(cfg, before, s, l);
    ScansFrom(cfg, s, run, t, l, read, scan, base, n);
  }

  /** The bound of `RecoveredInTime` on how far the clock advances. */
  lemma DeadlineIs(now: int, read: nat, scan: nat, interval: nat, n: nat)
    ensures Due(now + interval, n, read + scan + interval) + (read + scan) - now
         == interval + n * (read + scan + interval) + (read + scan)
  {
    DueIs(now + interval, n, read + scan + interval);
  }

  lemma {:induction false} ReachableIsValid(cfg: Config, run: seq<Action>)
    requires After(cfg, INIT, run).Some?
    ensures Valid(After(cfg, INIT, run).value.group)
    decreases |run|
  {
    if run == [] {
    } else {
      var n := |run| - 1;
      ReachableIsValid(cfg, run[..n]);
      StepKeepsValid(cfg, After(cfg, INIT, run[..n]).value, run[n]);
    }
  }

  /** In every reachable state the next scan of a loop is no further away than the interval. */
  lemma {:induction false} NextScanIsNear(cfg: Config, run: seq<Action>, l: nat)
    requires cfg.interval > 0 && After(cfg, INIT, run).Some?
    ensures var s := After(cfg, INIT, run).value;
      l in s.loops ==> s.loops[l].nextClaim <= s.loops[l].now + cfg.interval
    decreases |run|
  {
    if run == [] {
    } else {
      var n := |run| - 1;
      var mid := After(cfg, INIT, run[..n]).value;
      NextScanIsNear(cfg, run[..n], l);
      if Mover(run[n]) == Some(l) {
        OwnStepStaysNear(cfg, mid, run[n], l);
      } else {
        OthersUnmoved(cfg, mid, run[n], l);
      }
    }
  }

  lemma OwnStepStaysNear(cfg: Config, s: State, a: Action, l: nat)
    requires cfg.interval > 0 && Enabled(cfg, s, a) && Mover(a) == Some(l)
    requires l in s.loops ==> s.loops[l].nextClaim <= s.loops[l].now + cfg.interval
    ensures l in Next(cfg, s, a).loops
    ensures Next(cfg, s, a).loops[l].nextClaim <= Next(cfg, s, a).loops[l].now + cfg.interval
  {
  }
}
