/** `Publish` of the in-process broker as code, between arbitrary interference: it is a run of the
    broker's steps that serves every group of its snapshot and never blocks. */
module ChannelPublish {
  import opened Prelude
  import opened Channel
  import opened ChannelSafety

  /** Steps that belong to publish `p`. */
  predicate Own(a: Action, p: nat) {
    match a
    case PublishBegins(q, _) => q == p
    case PickGroup(q, _) => q == p
    case TryMember(q, _) => q == p
    case SpawnSender(q) => q == p
    case PublishReturns(q) => q == p
    case _ => false
  }

  predicate FromOthers(env: seq<Action>, p: nat) {
    forall k | 0 <= k < |env| :: !Own(env[k], p)
  }

  lemma OtherStepLeavesPublish(s: State, a: Action, p: nat)
    requires p in s.pubs && Enabled(s, a) && !Own(a, p)
    ensures p in Next(s, a).pubs && Next(s, a).pubs[p] == s.pubs[p]
  {
  }

  lemma {:induction false} OthersLeavePublish(s: State, env: seq<Action>, p: nat)
    requires p in s.pubs && After(s, env).Some? && FromOthers(env, p)
    ensures var t := After(s, env).value; p in t.pubs && t.pubs[p] == s.pubs[p]
    decreases |env|
  {
    if env == [] {
    } else {
      var n := |env| - 1;
      assert forall k | 0 <= k < n :: env[..n][k] == env[k];
      OthersLeavePublish(s, env[..n], p);
      OtherStepLeavesPublish(After(s, env[..n]).value, env[n], p);
    }
  }

  lemma RunAppends(s: State, run: seq<Action>, a: Action)
    requires After(s, run).Some? && Enabled(After(s, run).value, a)
    ensures After(s, run + [a]) == Some(Next(After(s, run).value, a))
  {
    assert (run + [a])[..|run|] == run;
  }

  /** What every reachable state knows about a publish. */
  lemma PublishIsOk(run: seq<Action>, s: State, p: nat)
    requires After(INIT, run) == Some(s) && p in s.pubs
    ensures PubOk(s, s.pubs[p])
  {
    RunKeepsInv(run);
  }

  lemma EveryGroupHasOne(run: seq<Action>, s: State, p: nat)
    requires After(INIT, run) == Some(s) && p in s.pubs && s.pubs[p].todo == {}
    ensures forall g | g in s.pubs[p].groups :: Everywhere(s)[Copy(p, g)] == 1
  {
    forall g | g in s.pubs[p].groups
      ensures Everywhere(s)[Copy(p, g)] == 1
    {
      CopiesAreConserved(run, s, p, g);
    }
  }

  /** Subscribers without a queue name are alone in a group that has its copy. */
  ghost predicate AloneServed(subs: seq<Sub>, topic: string, s: State, p: nat)
    requires p in s.pubs
  {
    forall i | 0 <= i < |subs| && subs[i].topic == topic && subs[i].queue == "" ::
      var g := subs[i].id; g in s.pubs[p].groups && s.pubs[p].groups[g] == [i] && Everywhere(s)[Copy(p, g)] == 1
  }

  lemma AloneAreServed(subs: seq<Sub>, topic: string, s: State, p: nat)
    requires DistinctIds(subs) && InRange(subs, Snapshot(subs, topic))
    requires p in s.pubs && s.pubs[p].groups == Groups(subs, Snapshot(subs, topic))
    requires forall g | g in s.pubs[p].groups :: Everywhere(s)[Copy(p, g)] == 1
    ensures AloneServed(subs, topic, s, p)
  {
    forall i | 0 <= i < |subs| && subs[i].topic == topic && subs[i].queue == ""
      ensures subs[i].id in s.pubs[p].groups && s.pubs[p].groups[subs[i].id] == [i]
    {
      AloneWithoutQueue(subs, topic, i);
    }
  }

  /** The member had no room when it was tried. */
  predicate Full(s: State, i: nat) {
    i < |s.subs| && |s.subs[i].pending| >= s.subs[i].cap
  }

  predicate AllFull(seen: seq<State>, members: seq<nat>) {
    |seen| <= |members| && forall k | 0 <= k < |seen| :: Full(seen[k], members[k])
  }

  /** The broker as one publisher meets it; `run` is the history of steps from `INIT`. */
  class World {
    ghost var run: seq<Action>
    var s: State

    ghost predicate Valid()
      reads this
    {
      After(INIT, run) == Some(s)
    }

    /** The last copy sent, to a subscriber's queue or by a goroutine still blocked. */
    ghost predicate WasSent(c: Copy, to: nat)
      reads this
    {
      s.sent != [] && s.sent[|s.sent| - 1] == Sent(c, to)
    }

    ghost predicate WasLeft(c: Copy, to: nat)
      reads this
    {
      s.blocked != [] && s.blocked[|s.blocked| - 1] == Blocked(c, to)
    }

    constructor ()
      ensures Valid() && s == INIT && run == []
    {
      s, run := INIT, [];
    }

    method Do(a: Action)
      requires Valid() && Enabled(s, a)
      modifies this
      ensures Valid() && s == Next(old(s), a) && run == old(run) + [a]
    {
      RunAppends(INIT, run, a);
      run := run + [a];
      s := Next(s, a);
    }

    /** Any number of steps of anyone else; the body stands for the choice, and what the caller learns
        holds of every such interval, by `OthersLeavePublish`. */
    method Interfere(p: nat) returns (ghost env: seq<Action>)
      requires Valid() && p in s.pubs
      modifies this
      ensures Valid() && FromOthers(env, p) && run == old(run) + env && After(old(s), env) == Some(s)
      ensures p in s.pubs && s.pubs[p] == old(s.pubs[p])
    {
      env := [];
      assert run + env == run;
    }

    method Wait(p: nat)
      requires Valid() && p in s.pubs
      modifies this
      ensures Valid() && old(run) <= run && p in s.pubs && s.pubs[p] == old(s.pubs[p])
    {
      var env := Interfere(p);
    }

    method Pick(p: nat, group: string)
      requires Valid() && p in s.pubs && s.pubs[p].current.None? && group in s.pubs[p].todo
      modifies this
      ensures Valid() && old(run) <= run && p in s.pubs
      ensures s.pubs[p] == old(s.pubs[p]).(current := Some((group, 0)))
    {
      Wait(p);
      Do(PickGroup(p, group));
    }

    /** One non-blocking send to the next member. */
    method TrySend(p: nat, group: string, i: nat) returns (sent: bool)
      requires Valid() && p in s.pubs && s.pubs[p].current == Some((group, i))
      requires group in s.pubs[p].groups && i < |s.pubs[p].groups[group]|
      modifies this
      ensures Valid() && old(run) <= run && p in s.pubs
      ensures s.pubs[p] == if sent then Served(old(s.pubs[p])) else old(s.pubs[p]).(current := Some((group, i + 1)))
      ensures var to := old(s.pubs[p]).groups[group][i];
        if sent then WasSent(Copy(p, group), to) else Full(s, to)
    {
      Wait(p);
      PublishIsOk(run, s, p);
      var parked: bool := *;
      Do(TryMember(p, parked));
      sent := s.pubs[p].current.None?;
    }

    method Spawn(p: nat, group: string)
      requires Valid() && p in s.pubs && group in s.pubs[p].groups && s.pubs[p].groups[group] != []
      requires s.pubs[p].current == Some((group, |s.pubs[p].groups[group]|))
      modifies this
      ensures Valid() && old(run) <= run && p in s.pubs && s.pubs[p] == Served(old(s.pubs[p]))
      ensures WasLeft(Copy(p, group), old(s.pubs[p]).groups[group][0])
    {
      Wait(p);
      Do(SpawnSender(p));
    }

    /** The members in order until one accepts. `seen` holds the states in which a member turned out to be
        full. */
    method TryMembers(p: nat, group: string, groupSubs: seq<nat>) returns (sent: bool, ghost seen: seq<State>)
      requires Valid() && p in s.pubs && s.pubs[p].current == Some((group, 0))
      requires group in s.pubs[p].groups && s.pubs[p].groups[group] == groupSubs
      modifies this
      ensures Valid() && old(run) <= run && p in s.pubs && AllFull(seen, groupSubs)
      ensures s.pubs[p] == if sent then Served(old(s.pubs[p]))
                           else old(s.pubs[p]).(current := Some((group, |groupSubs|)))
      ensures if sent then |seen| < |groupSubs| && WasSent(Copy(p, group), groupSubs[|seen|])
              else |seen| == |groupSubs|
    {
      ghost var first := s.pubs[p];
      sent, seen := false, [];
      var i := 0;
      while i < |groupSubs| && !sent
        invariant Valid() && old(run) <= run && p in s.pubs && i <= |groupSubs| && AllFull(seen, groupSubs)
        invariant s.pubs[p] == if sent then Served(first) else first.(current := Some((group, i)))
        invariant |seen| == if sent then i - 1 else i
        invariant sent ==> WasSent(Copy(p, group), groupSubs[|seen|])
      {
        sent := TrySend(p, group, i);
        if !sent {
          seen := seen + [s];
        }
        i := i + 1;
      }
    }

    /** One group: the members in order until one accepts, else a goroutine for the first. Either way
        exactly one copy is made, for the first member that was not full when it was tried. */
    method SendToGroup(p: nat, group: string, groupSubs: seq<nat>) returns (ghost seen: seq<State>)
      requires Valid() && p in s.pubs && s.pubs[p].current.None? && group in s.pubs[p].todo
      requires group in s.pubs[p].groups && s.pubs[p].groups[group] == groupSubs && |groupSubs| > 0
      modifies this
      ensures Valid() && old(run) <= run && p in s.pubs
      ensures s.pubs[p] == old(s.pubs[p]).(todo := old(s.pubs[p].todo) - {group})
      ensures Everywhere(old(s))[Copy(p, group)] == 0 && Everywhere(s)[Copy(p, group)] == 1
      ensures AllFull(seen, groupSubs)
      ensures if |seen| < |groupSubs| then WasSent(Copy(p, group), groupSubs[|seen|])
              else WasLeft(Copy(p, group), groupSubs[0])
    {
      CopiesAreConserved(run, s, p, group);
      Pick(p, group);
      var sent: bool;
      sent, seen := TryMembers(p, group, groupSubs);
      if !sent && |groupSubs| > 0 {
        Spawn(p, group);
      }
      CopiesAreConserved(run, s, p, group);
    }

    /** Entering `Publish`: the connection check, the snapshot and its grouping. */
    method Begin(p: nat, topic: string) returns (groups: map<string, seq<nat>>)
      requires Valid() && p !in s.pubs && s.connected
      modifies this
      ensures Valid() && old(run) <= run && p in s.pubs
      ensures InRange(old(s.subs), Snapshot(old(s.subs), topic))
      ensures groups == Groups(old(s.subs), Snapshot(old(s.subs), topic))
      ensures s.pubs[p] == Pub(groups, groups.Keys, None, false, s.pubs[p].before)
    {
      SnapshotInRange(s.subs, topic);
      groups := GroupSubs(s.subs, Snapshot(s.subs, topic));
      Do(PublishBegins(p, topic));
    }

    method Return(p: nat)
      requires Valid() && p in s.pubs && s.pubs[p].current.None? && s.pubs[p].todo == {}
      modifies this
      ensures Valid() && old(run) <= run && p in s.pubs && s.pubs[p] == old(s.pubs[p]).(returned := true)
    {
      Wait(p);
      Do(PublishReturns(p));
    }

    /** `Publish`. It fails exactly when the broker is not connected; otherwise it returns, without ever
        waiting for a subscriber, with every group of the snapshot it took served. */
    method Publish(p: nat, topic: string) returns (err: bool)
      requires Valid() && p !in s.pubs
      modifies this
      ensures Valid() && old(run) <= run
      ensures err == !old(s.connected)
      ensures err ==> s == old(s)
      ensures !err ==> p in s.pubs && s.pubs[p].returned && s.pubs[p].todo == {}
                       && InRange(old(s.subs), Snapshot(old(s.subs), topic))
                       && s.pubs[p].groups == Groups(old(s.subs), Snapshot(old(s.subs), topic))
      ensures !err ==> forall g | g in s.pubs[p].groups :: Everywhere(s)[Copy(p, g)] == 1
      ensures !err && DistinctIds(old(s.subs)) ==> AloneServed(old(s.subs), topic, s, p)
    {
      if !s.connected {
        return true;
      }
      ghost var subs := s.subs;
      var groups := Begin(p, topic);
      var rest := groups.Keys;
      while rest != {}
        invariant Valid() && old(run) <= run && p in s.pubs
        invariant s.pubs[p].groups == groups && s.pubs[p].current.None? && s.pubs[p].todo == rest
        decreases rest
      {
        var group :| group in rest;
        PublishIsOk(run, s, p);
        ghost var seen := SendToGroup(p, group, groups[group]);
        rest := rest - {group};
      }
      Return(p);
      EveryGroupHasOne(run, s, p);
      if DistinctIds(subs) {
        AloneAreServed(subs, topic, s, p);
      }
      return false;
    }
  }
}
