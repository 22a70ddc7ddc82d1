/** The Redis server as the broker uses it: one stream with one consumer group. Entry number `k`
    of the log has id `k`, so ids start at 1 and 0 stands for the cursor `0-0`. Only the documented
    behaviour of XADD, XREADGROUP with `>`, XAUTOCLAIM and XACK is modelled; entries are never
    trimmed, because the broker never trims them. */
module Streams {
  import opened Prelude
  import Wire

  /** A pending entry: who received it last, and when on the server's clock. */
  datatype Pending = Pending(owner: string, at: int)

  /** `last` is the last id handed out to new readers. `acked` collects the ids that XACK removed
      from the pending list. */
  datatype Group = Group(log: seq<Wire.Entry>, last: nat, pel: map<nat, Pending>, acked: set<nat>)

  const EMPTY: Group := Group([], 0, map[], {})

  /** Every delivered id is pending or acknowledged, never both, and no other id is either. */
  ghost predicate Valid(g: Group) {
    && g.last <= |g.log|
    && g.pel.Keys !! g.acked
    && (forall id :: id in g.pel || id in g.acked <==> 1 <= id <= g.last)
  }

  function Undelivered(g: Group): int {
    |g.log| - g.last
  }

  /** XADD. */
  function Add(g: Group, e: Wire.Entry): Group {
    g.(log := g.log + [e])
  }

  /** XACK removes by id, whoever owns the entry. */
  function Ack(g: Group, id: nat): Group {
    if id in g.pel then g.(pel := g.pel - {id}, acked := g.acked + {id}) else g
  }

  /** The ids that XREADGROUP with `>` hands out next, at most `count` of them. */
  function NewIds(g: Group, count: int): seq<nat> {
    seq(Max(0, Min(count, Undelivered(g))), i requires 0 <= i => g.last + 1 + i)
  }

  /** Gives every listed id to `owner` at time `now`. */
  function Assign(pel: map<nat, Pending>, ids: seq<nat>, owner: string, now: int): map<nat, Pending> {
    map id | id in pel.Keys + (set x | x in ids) :: if id in ids then Pending(owner, now) else pel[id]
  }

  function ReadNew(g: Group, owner: string, count: int, now: int): Group {
    var ids := NewIds(g, count);
    g.(last := g.last + |ids|, pel := Assign(g.pel, ids, owner, now))
  }

  predicate Idle(g: Group, id: nat, minIdle: int, now: int) {
    id in g.pel && now - g.pel[id].at >= minIdle
  }

  /** The idle pending ids in `[start, stop)`, in order. */
  function Claims(g: Group, start: nat, stop: nat, minIdle: int, now: int): seq<nat>
    decreases stop - start
  {
    if start >= stop then []
    else (if Idle(g, start, minIdle, now) then [start] else []) + Claims(g, start + 1, stop, minIdle, now)
  }

  /** The smallest pending id from `from` on, or 0 when the pending list ends before it. */
  function NextCursor(g: Group, from: nat): nat
    decreases g.last + 1 - from
  {
    if from > g.last then 0
    else if from in g.pel then from
    else NextCursor(g, from + 1)
  }

  /** A scan may examine the pending ids in `[start, stop)` if that claims no more than `count`
      entries, and if it examined something whenever it stops before the end of the list. */
  ghost predicate LegalScan(g: Group, start: nat, stop: nat, count: int, minIdle: int, now: int) {
    && |Claims(g, start, stop, minIdle, now)| <= Max(0, count)
    && (count > 0 && NextCursor(g, stop) != 0 ==> exists id :: id in g.pel && start <= id < stop)
  }

  /** XAUTOCLAIM: the scan's claims get the new owner and a fresh idle time. */
  function AutoClaim(g: Group, owner: string, start: nat, stop: nat, minIdle: int, now: int): Group {
    g.(pel := Assign(g.pel, Claims(g, start, stop, minIdle, now), owner, now))
  }

  // ---- Facts about the commands ----

  predicate Increasing(ids: seq<nat>) {
    forall i, j | 0 <= i < j < |ids| :: ids[i] < ids[j]
  }

  lemma {:induction false} ClaimsFacts(g: Group, start: nat, stop: nat, minIdle: int, now: int)
    ensures forall id :: id in Claims(g, start, stop, minIdle, now) <==> start <= id < stop && Idle(g, id, minIdle, now)
    ensures Increasing(Claims(g, start, stop, minIdle, now))
    decreases stop - start
  {
    if start < stop {
      ClaimsFacts(g, start + 1, stop, minIdle, now);
      var rest := Claims(g, start + 1, stop, minIdle, now);
      assert forall i | 0 <= i < |rest| :: rest[i] in rest;
    }
  }

  /** A scan can be cut in two. */
  lemma {:induction false} ClaimsSplit(g: Group, start: nat, mid: nat, stop: nat, minIdle: int, now: int)
    requires start <= mid <= stop
    ensures Claims(g, start, stop, minIdle, now)
         == Claims(g, start, mid, minIdle, now) + Claims(g, mid, stop, minIdle, now)
    decreases mid - start
  {
    if start == mid {
      assert Claims(g, start, mid, minIdle, now) == [];
    } else {
      ClaimsSplit(g, start + 1, mid, stop, minIdle, now);
    }
  }

  lemma {:induction false} NextCursorFacts(g: Group, from: nat)
    requires 0 !in g.pel
    ensures var next := NextCursor(g, from);
      && (next != 0 ==> from <= next <= g.last && next in g.pel)
      && (forall id | id in g.pel && from <= id <= g.last :: 0 < next <= id)
    decreases g.last + 1 - from
  {
    if from <= g.last && from !in g.pel {
      NextCursorFacts(g, from + 1);
    }
  }

  // Every command keeps the three-way partition.

  lemma AddKeeps(g: Group, e: Wire.Entry)
    requires Valid(g)
    ensures Valid(Add(g, e))
  {
  }

  lemma AckKeeps(g: Group, id: nat)
    requires Valid(g)
    ensures Valid(Ack(g, id)) && Ack(g, id).last == g.last && Ack(g, id).log == g.log
    ensures Ack(g, id).pel == g.pel - {id}
    ensures Ack(g, id).acked == g.acked + (if id in g.pel then {id} else {})
  {
  }

  lemma ReadNewKeeps(g: Group, owner: string, count: int, now: int)
    requires Valid(g)
    ensures Valid(ReadNew(g, owner, count, now))
  {
    ReadNewDelivers(g, owner, count, now);
  }

  lemma AutoClaimKeeps(g: Group, owner: string, start: nat, stop: nat, minIdle: int, now: int)
    requires Valid(g)
    ensures Valid(AutoClaim(g, owner, start, stop, minIdle, now))
  {
    AutoClaimDelivers(g, owner, start, stop, minIdle, now);
  }

  /** XREADGROUP hands out exactly the next ids: none of them was ever delivered before, and there
      are as many as were asked for and available. */
  lemma ReadNewDelivers(g: Group, owner: string, count: int, now: int)
    requires Valid(g)
    ensures var ids, r := NewIds(g, count), ReadNew(g, owner, count, now);
      && Increasing(ids)
      && (forall x :: x in ids <==> g.last < x <= r.last)
      && r.last == g.last + Max(0, Min(count, Undelivered(g)))
      && (forall x | x in ids :: x !in g.pel && x !in g.acked && r.pel[x] == Pending(owner, now))
      && (forall x | x in g.pel :: x in r.pel && r.pel[x] == g.pel[x])
      && (forall x | x in r.pel :: x in g.pel || x in ids)
      && r.acked == g.acked
  {
    var ids := NewIds(g, count);
    forall x | g.last < x <= g.last + |ids|
      ensures x in ids
    {
      assert ids[x - g.last - 1] == x;
    }
  }

  /** XAUTOCLAIM hands out exactly the idle entries it examined. */
  lemma AutoClaimDelivers(g: Group, owner: string, start: nat, stop: nat, minIdle: int, now: int)
    ensures var r := AutoClaim(g, owner, start, stop, minIdle, now);
      && r.pel.Keys == g.pel.Keys
      && (forall x | x in g.pel ::
            r.pel[x] == if start <= x < stop && now - g.pel[x].at >= minIdle then Pending(owner, now) else g.pel[x])
  {
    ClaimsFacts(g, start, stop, minIdle, now);
  }
}
