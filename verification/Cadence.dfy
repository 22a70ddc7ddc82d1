/** How often a consumer loop scans for abandoned messages, from the time its calls take
    (`broker/redis/redis.go`, `consumeLoop`). */
module Cadence {
  import opened Prelude
  import opened Delivery
  import opened Timing
  import Retry

  const SECOND: int := 1_000_000_000

  /** Blocking reads are capped at the claim interval. */
  method ChooseBlock(blockTimeout: int, claimInterval: int) returns (block: int)
    requires claimInterval > 0
    ensures 0 < block <= claimInterval
    ensures 0 < blockTimeout <= claimInterval ==> block == blockTimeout
    ensures blockTimeout <= 0 || claimInterval < blockTimeout ==> block == claimInterval
  {
    block := blockTimeout;
    if block <= 0 || block > claimInterval {
      block := claimInterval;
    }
  }

  /** Where a loop can spend time: in the read, with a batch, in the pause after a failed read, and in the
      scan. At the head of a round it spends none. */
  datatype Place = Reading | WithBatch | Pause | Claiming | Head

  function PlaceOf(pc: Pc): Place {
    match pc
    case AtRead => Reading
    case Pausing => Pause
    case AtClaim => Claiming
    case Top => Head
    case _ => WithBatch
  }

  /** How long a loop stays at a place: a read returns within `block`, the messages of a batch take at most
      `handling`, a pause is one second, and a scan returns within `claim`. */
  datatype Limits = Limits(block: nat, handling: nat, claim: nat)

  function LimitAt(limits: Limits, place: Place): int {
    match place
    case Reading => limits.block
    case WithBatch => limits.handling
    case Pause => SECOND
    case Claiming => limits.claim
    case Head => 0
  }

  /** When the loop came to the place where it is. */
  ghost function Arrived(cfg: Config, s: State, run: seq<Action>, l: nat): int
    requires After(cfg, s, run).Some? && l in s.loops
    decreases |run|
  {
    if run == [] then s.loops[l].now
    else
      var mid, t := After(cfg, s, run[..|run| - 1]).value, After(cfg, s, run).value;
      if l in mid.loops && l in t.loops && PlaceOf(mid.loops[l].pc) != PlaceOf(t.loops[l].pc) then t.loops[l].now
      else Arrived(cfg, s, run[..|run| - 1], l)
  }

  /** At every moment of the run the loop lives and has not stayed too long where it is. */
  ghost predicate Brisk(cfg: Config, s: State, run: seq<Action>, l: nat, limits: Limits)
    decreases |run|
  {
    && After(cfg, s, run).Some? && l in s.loops
    && var t := After(cfg, s, run).value;
    && l in t.loops && Live(t.loops[l])
    && t.loops[l].now - Arrived(cfg, s, run, l) <= LimitAt(limits, PlaceOf(t.loops[l].pc))
    && (run != [] ==> Brisk(cfg, s, run[..|run| - 1], l, limits))
  }

  /** The longest that the reading part of a round can take, and the scanning part. */
  function ReadPart(limits: Limits): nat {
    limits.block + Max(limits.handling, SECOND)
  }

  function ScanPart(limits: Limits): nat {
    limits.claim + limits.handling
  }

  /** How much of its part a loop can have used up before it came to a place. */
  function UsedBefore(limits: Limits, loop: Loop): int {
    match PlaceOf(loop.pc)
    case Reading => 0
    case Claiming => 0
    case Pause => limits.block
    case WithBatch => if loop.src == FromClaim then limits.claim else limits.block
    case Head => ReadPart(limits)
  }

  lemma OwnStepArrives(cfg: Config, s: State, a: Action, l: nat)
    requires Enabled(cfg, s, a) && Mover(a) == Some(l) && l in s.loops && l in Next(cfg, s, a).loops
    requires Live(Next(cfg, s, a).loops[l])
    ensures Moves(s.loops[l], Next(cfg, s, a).loops[l])
  {
  }

  /** The ways from place to place, none of which takes time. */
  predicate Moves(b: Loop, c: Loop) {
    match (PlaceOf(b.pc), PlaceOf(c.pc))
    case (Reading, Reading) => true
    case (Reading, WithBatch) => c.now == b.now && c.src == FromRead
    case (Reading, Pause) => c.now == b.now
    case (Reading, Head) => c.now == b.now
    case (WithBatch, WithBatch) => c.src == b.src
    case (WithBatch, Reading) => c.now == b.now && b.src == FromClaim
    case (WithBatch, Head) => c.now == b.now && b.src == FromRead
    case (Pause, Pause) => true
    case (Pause, Head) => c.now == b.now
    case (Claiming, Claiming) => true
    case (Claiming, Reading) => c.now == b.now
    case (Claiming, WithBatch) => c.now == b.now && c.src == FromClaim
    case (Head, Head) => true
    case (Head, Reading) => c.now == b.now
    case (Head, Claiming) => c.now == b.now
    case _ => false
  }

  lemma StepArrives(cfg: Config, s: State, a: Action, l: nat)
    requires Enabled(cfg, s, a) && l in s.loops
    requires l in Next(cfg, s, a).loops && Live(Next(cfg, s, a).loops[l])
    ensures Moves(s.loops[l], Next(cfg, s, a).loops[l])
  {
    if Mover(a) == Some(l) {
      OwnStepArrives(cfg, s, a, l);
    } else {
      OthersUnmoved(cfg, s, a, l);
    }
  }

  /** What one step does to the time used up. */
  lemma UsedGrows(limits: Limits, b: Loop, c: Loop, began: int, arrived: int)
    requires Live(b) && Moves(b, c) && arrived - began <= UsedBefore(limits, b)
    requires b.now - arrived <= LimitAt(limits, PlaceOf(b.pc))
    ensures var began' := if Begins(b, c) then c.now else began;
            var arrived' := if PlaceOf(b.pc) != PlaceOf(c.pc) then c.now else arrived;
            arrived' - began' <= UsedBefore(limits, c)
  {
  }

  lemma {:induction false} UsedInTime(cfg: Config, s: State, run: seq<Action>, l: nat, limits: Limits)
    requires Brisk(cfg, s, run, l, limits) && s.loops[l].pc == Top
    ensures Arrived(cfg, s, run, l) - Began(cfg, s, run, l) <= UsedBefore(limits, After(cfg, s, run).value.loops[l])
    decreases |run|
  {
    if run == [] {
    } else {
      var n := |run| - 1;
      UsedInTime(cfg, s, run[..n], l, limits);
      var mid, t := After(cfg, s, run[..n]).value, After(cfg, s, run).value;
      StepArrives(cfg, mid, run[n], l);
      UsedGrows(limits, mid.loops[l], t.loops[l], Began(cfg, s, run[..n], l), Arrived(cfg, s, run[..n], l));
    }
  }

  lemma PartIsShort(limits: Limits, loop: Loop, began: int, arrived: int)
    requires Live(loop) && arrived - began <= UsedBefore(limits, loop)
    requires loop.now - arrived <= LimitAt(limits, PlaceOf(loop.pc))
    ensures loop.now - began <= if Scanning(loop) then ScanPart(limits) else ReadPart(limits)
  {
  }

  /** A loop whose calls keep to their limits is prompt. */
  lemma {:induction false} BriskIsPrompt(cfg: Config, s: State, run: seq<Action>, l: nat, limits: Limits)
    requires Brisk(cfg, s, run, l, limits) && s.loops[l].pc == Top
    ensures Prompt(cfg, s, run, l, ReadPart(limits), ScanPart(limits))
    decreases |run|
  {
    UsedInTime(cfg, s, run, l, limits);
    PartIsShort(limits, After(cfg, s, run).value.loops[l], Began(cfg, s, run, l), Arrived(cfg, s, run, l));
    if run == [] {
    } else {
      BriskIsPrompt(cfg, s, run[..|run| - 1], l, limits);
    }
  }

  /** Main result. With reads that return within the block time, batches that take at most `handling`, and
      pauses of a second, whenever the loop decides to scan its last scan ended at least the claim interval
      ago, and less than that plus the block time plus the longer of `handling` and a second: with or without
      traffic. */
  lemma ScanTimes(cfg: Config, s: State, run: seq<Action>, t: State, l: nat, limits: Limits)
    requires cfg.interval > 0 && Brisk(cfg, s, run, l, limits) && After(cfg, s, run) == Some(t)
    requires s.loops[l].pc == Top && LastEnd(cfg, s, run, l).Some?
    requires At(t, l, Top) && Enabled(cfg, t, Decide(l)) && At(Next(cfg, t, Decide(l)), l, AtClaim)
    ensures var since := t.loops[l].now - LastEnd(cfg, s, run, l).value;
      cfg.interval <= since < cfg.interval + limits.block + Max(limits.handling, SECOND)
  {
    BriskIsPrompt(cfg, s, run, l, limits);
    ScansAreRegular(cfg, s, run, t, l, ReadPart(limits), ScanPart(limits));
  }

  // ---- Without traffic ----

  function EmptyReads(run: seq<Action>, l: nat): nat {
    if run == [] then 0 else EmptyReads(run[..|run| - 1], l) + (if run[|run| - 1] == ReadNothing(l) then 1 else 0)
  }

  /** A step of loop `l` while no message arrives: it waits in the read, which comes back empty after the full
      block time, and decides at once; or a step of anyone else. */
  ghost predicate IsIdle(cfg: Config, s: State, run: seq<Action>, a: Action, l: nat, block: nat)
    requires After(cfg, s, run).Some? && l in s.loops
  {
    var t := After(cfg, s, run).value;
    Mover(a) == Some(l) ==> l in t.loops && IdleStep(t.loops[l], Arrived(cfg, s, run, l), a, block)
  }

  ghost predicate IdleRun(cfg: Config, s: State, run: seq<Action>, l: nat, block: nat)
    decreases |run|
  {
    && After(cfg, s, run).Some? && l in s.loops
    && (run != [] ==>
          && IdleRun(cfg, s, run[..|run| - 1], l, block)
          && IsIdle(cfg, s, run[..|run| - 1], run[|run| - 1], l, block))
  }

  /** Where an idle loop is after `empty` empty reads since `start`, when the last scan ended. */
  ghost predicate IdleAt(cfg: Config, loop: Loop, arrived: int, start: int, empty: nat, block: nat) {
    && loop.nextClaim == start + cfg.interval
    && match loop.pc
       case AtRead => arrived == Due(start, empty, block) < loop.nextClaim
       case Top => empty > 0 && loop.now == Due(start, empty, block) && Due(start, empty - 1, block) < loop.nextClaim
       case AtClaim =>
         empty > 0 && Due(start, empty - 1, block) < loop.nextClaim <= Due(start, empty, block)
       case _ => false
  }

  /** What an idle loop may do when it came to its place at time `arrived`. */
  predicate IdleStep(loop: Loop, arrived: int, a: Action, block: nat) {
    match a
    case LocalTick(_, _) => loop.pc == AtRead
    case ReadNothing(_) => loop.now - arrived == block && !loop.cancelled
    case Decide(_) => !loop.cancelled
    case _ => false
  }

  lemma IdleOwnStep(cfg: Config, s: State, a: Action, l: nat, arrived: int, start: int, empty: nat, block: nat)
    requires Enabled(cfg, s, a) && Mover(a) == Some(l) && l in s.loops
    requires IdleAt(cfg, s.loops[l], arrived, start, empty, block) && IdleStep(s.loops[l], arrived, a, block)
    ensures l in Next(cfg, s, a).loops
    ensures var b, c := s.loops[l], Next(cfg, s, a).loops[l];
      IdleAt(cfg, c, if PlaceOf(b.pc) != PlaceOf(c.pc) then c.now else arrived, start,
             empty + (if a == ReadNothing(l) then 1 else 0), block)
  {
  }

  lemma IdleAnyStep(cfg: Config, s: State, a: Action, l: nat, arrived: int, start: int, empty: nat, block: nat)
    requires Enabled(cfg, s, a) && l in s.loops && IdleAt(cfg, s.loops[l], arrived, start, empty, block)
    requires Mover(a) == Some(l) ==> IdleStep(s.loops[l], arrived, a, block)
    ensures l in Next(cfg, s, a).loops
    ensures var b, c := s.loops[l], Next(cfg, s, a).loops[l];
      IdleAt(cfg, c, if PlaceOf(b.pc) != PlaceOf(c.pc) then c.now else arrived, start,
             empty + (if a == ReadNothing(l) then 1 else 0), block)
  {
    if Mover(a) == Some(l) {
      IdleOwnStep(cfg, s, a, l, arrived, start, empty, block);
    } else {
      OthersUnmoved(cfg, s, a, l);
    }
  }

  lemma {:induction false} StaysIdle(cfg: Config, s: State, run: seq<Action>, l: nat, block: nat)
    requires cfg.interval > 0 && IdleRun(cfg, s, run, l, block)
    requires s.loops[l].pc == AtRead && s.loops[l].nextClaim == s.loops[l].now + cfg.interval
    ensures l in After(cfg, s, run).value.loops
    ensures IdleAt(cfg, After(cfg, s, run).value.loops[l], Arrived(cfg, s, run, l), s.loops[l].now, EmptyReads(run, l),
                   block)
    decreases |run|
  {
    if run == [] {
    } else {
      var n := |run| - 1;
      StaysIdle(cfg, s, run[..n], l, block);
      IdleAnyStep(cfg, After(cfg, s, run[..n]).value, run[n], l, Arrived(cfg, s, run[..n], l), s.loops[l].now,
                  EmptyReads(run[..n], l), block);
    }
  }

  /** `count` is the number of steps of size `block` that reach the interval: its quotient, rounded up. */
  lemma QuotientUp(start: int, interval: int, count: nat, block: nat)
    requires count > 0 && Due(start, count - 1, block) < start + interval <= Due(start, count, block)
    ensures (count - 1) * block < interval <= count * block
  {
    DueIs(start, count - 1, block);
    DueIs(start, count, block);
  }

  /** Main result. When no message arrives and every read blocks for its full time, the loop scans again after
      exactly `ceil(interval / block)` reads, whatever others do. */
  lemma IdleReads(cfg: Config, s: State, run: seq<Action>, t: State, l: nat, block: nat) returns (count: nat)
    requires cfg.interval > 0 && IdleRun(cfg, s, run, l, block) && After(cfg, s, run) == Some(t)
    requires s.loops[l].pc == AtRead && s.loops[l].nextClaim == s.loops[l].now + cfg.interval
    requires At(t, l, AtClaim)
    ensures count == EmptyReads(run, l) && (count - 1) * block < cfg.interval <= count * block
  {
    StaysIdle(cfg, s, run, l, block);
    count := EmptyReads(run, l);
    QuotientUp(s.loops[l].now, cfg.interval, count, block);
  }
}
