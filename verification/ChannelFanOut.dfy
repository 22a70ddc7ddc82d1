/** Who receives a publish of the in-process broker, and what the other steps leave behind, over whole runs
    (`broker/mchannel/channel.go`). */
module ChannelFanOut {
  import opened Prelude
  import opened Channel
  import opened ChannelSafety
  import opened ChannelLiveness
  import ChannelOrder

  // ---- What stays ----

  predicate SameNames(a: Sub, b: Sub) {
    a.topic == b.topic && a.queue == b.queue && a.id == b.id && a.cap == b.cap
  }

  /** Subscribers stay registered under their names, and a signal to exit is not withdrawn. */
  predicate SubsKept(s: State, t: State) {
    && |s.subs| <= |t.subs|
    && forall i | 0 <= i < |s.subs| ::
         SameNames(s.subs[i], t.subs[i]) && (s.subs[i].exitSignal ==> t.subs[i].exitSignal)
  }

  lemma OneSubKept(s: State, i: nat, sub: Sub)
    requires i < |s.subs| && SameNames(s.subs[i], sub) && (s.subs[i].exitSignal ==> sub.exitSignal)
    ensures SubsKept(s, s.(subs := s.subs[i := sub]))
  {
  }

  lemma StepKeepsSubs(s: State, a: Action)
    requires Enabled(s, a)
    ensures SubsKept(s, Next(s, a))
  {
    match a
    case Unsubscribe(i) => OneSubKept(s, i, Next(s, a).subs[i]);
    case Take(i) => OneSubKept(s, i, Took(s.subs[i]));
    case Finish(i) => OneSubKept(s, i, Finished(s.subs[i]));
    case Exit(i) => OneSubKept(s, i, Next(s, a).subs[i]);
    case TryMember(p, parked) => TryKeepsSubs(s, p, parked);
    case SenderProceeds(k) => OneSubKept(s, s.blocked[k].to, Receive(s.subs[s.blocked[k].to], s.blocked[k].copy));
    case Disconnect =>
    case SubscribeRegisters(_, _, _, _) =>
    case _ => assert Next(s, a).subs == s.subs;
  }

  lemma TryKeepsSubs(s: State, p: nat, parked: bool)
    requires Enabled(s, TryMember(p, parked))
    ensures SubsKept(s, Next(s, TryMember(p, parked)))
  {
    var to := Target(s, p).value;
    if Receptive(s.subs[to]) {
      OneSubKept(s, to, Receive(s.subs[to], Copy(p, s.pubs[p].current.value.0)));
    }
  }

  lemma {:induction false} RunKeepsSubs(s: State, run: seq<Action>)
    requires After(s, run).Some?
    ensures SubsKept(s, After(s, run).value) && ChannelOrder.PubsStay(s, After(s, run).value)
    decreases |run|
  {
    if run == [] {
    } else {
      var n := |run| - 1;
      var mid := After(s, run[..n]).value;
      RunKeepsSubs(s, run[..n]);
      StepKeepsSubs(mid, run[n]);
      ChannelOrder.StepPubsStay(mid, run[n]);
    }
  }

  /** A run up to a step, that step, and the rest. */
  lemma {:induction false} Splits(before: seq<Action>, a: Action, after: seq<Action>)
    requires After(INIT, before + [a] + after).Some?
    ensures After(INIT, before).Some? && Enabled(After(INIT, before).value, a)
    ensures var t := Next(After(INIT, before).value, a);
      After(INIT, before + [a]) == Some(t) && After(t, after) == After(INIT, before + [a] + after)
    decreases |after|
  {
    if after == [] {
      assert before + [a] + after == before + [a];
      assert (before + [a])[..|before|] == before;
    } else {
      assert (before + [a] + after)[..|before + [a] + after| - 1] == before + [a] + after[..|after| - 1];
      Splits(before, a, after[..|after| - 1]);
      RunsConcat(INIT, before + [a], after);
    }
  }

  // ---- Who receives a publish ----

  /** Subscriber `i` has the copy: queued, blocked on its queue, in hand, or handled. */
  predicate Has(s: State, c: Copy, i: nat) {
    i < |s.subs| && (c in s.subs[i].handled || AwaitedBy(s, c, i))
  }

  lemma HasIsMember(run: seq<Action>, s: State, c: Copy, i: nat)
    requires After(INIT, run) == Some(s) && Has(s, c, i)
    ensures c.pub in s.pubs && c.group in s.pubs[c.pub].groups && i in s.pubs[c.pub].groups[c.group]
  {
    ChannelOrder.RunKeepsOrder(run);
    if IsBlocked(s, c, i) {
      var k :| 0 <= k < |s.blocked| && s.blocked[k] == Blocked(c, i);
    } else {
      assert c in ChannelOrder.Stream(s.subs[i]);
      ChannelOrder.StreamHoldsGroupCopies(run, s, i, c);
    }
  }

  /** Once a group is served, one of its members has the copy. */
  lemma ServedIsHad(run: seq<Action>, s: State, p: nat, g: string) returns (i: nat)
    requires After(INIT, run) == Some(s) && p in s.pubs && g in s.pubs[p].groups && g !in s.pubs[p].todo
    ensures i in s.pubs[p].groups[g] && Has(s, Copy(p, g), i)
  {
    var c := Copy(p, g);
    if IsHandled(s, c) {
      i :| 0 <= i < |s.subs| && c in s.subs[i].handled;
    } else {
      i := CreatedIsSomewhere(run, s, c);
    }
    HasIsMember(run, s, c, i);
  }

  /** The groups of a publish are those of the subscribers registered when it began. */
  lemma GroupsOfPublish(before: seq<Action>, p: nat, topic: string, after: seq<Action>, s: State)
    requires After(INIT, before + [PublishBegins(p, topic)] + after) == Some(s)
    ensures After(INIT, before).Some? && p in s.pubs
    ensures var subs := After(INIT, before).value.subs;
      && InRange(subs, Snapshot(subs, topic)) && s.pubs[p].groups == Groups(subs, Snapshot(subs, topic))
      && |subs| <= |s.subs| && forall i | 0 <= i < |subs| :: SameNames(subs[i], s.subs[i])
  {
    var a := PublishBegins(p, topic);
    Splits(before, a, after);
    RunKeepsSubs(Next(After(INIT, before).value, a), after);
    SnapshotInRange(After(INIT, before).value.subs, topic);
  }

  /** Every group of a returned publish has been served, and one of its members has the copy. */
  lemma ReturnedIsHad(run: seq<Action>, s: State, p: nat, g: string) returns (j: nat)
    requires After(INIT, run) == Some(s) && p in s.pubs && s.pubs[p].returned && g in s.pubs[p].groups
    ensures Everywhere(s)[Copy(p, g)] == 1 && j in s.pubs[p].groups[g] && Has(s, Copy(p, g), j)
  {
    CopiesAreConserved(run, s, p, g);
    j := ServedIsHad(run, s, p, g);
  }

  /** The groups of the publish are those of `subs` for the topic. */
  ghost predicate Grouped(s: State, p: nat, subs: seq<Sub>, topic: string) {
    && p in s.pubs && InRange(subs, Snapshot(subs, topic))
    && s.pubs[p].groups == Groups(subs, Snapshot(subs, topic))
  }

  lemma AloneHas(run: seq<Action>, s: State, p: nat, subs: seq<Sub>, topic: string, i: nat)
    requires After(INIT, run) == Some(s) && Grouped(s, p, subs, topic) && s.pubs[p].returned
    requires DistinctIds(subs) && i < |subs| && subs[i].topic == topic && subs[i].queue == ""
    ensures Has(s, Copy(p, subs[i].id), i) && Everywhere(s)[Copy(p, subs[i].id)] == 1
  {
    AloneWithoutQueue(subs, topic, i);
    var j := ReturnedIsHad(run, s, p, subs[i].id);
  }

  lemma QueueHas(run: seq<Action>, s: State, p: nat, subs: seq<Sub>, topic: string, i: nat) returns (j: nat)
    requires After(INIT, run) == Some(s) && Grouped(s, p, subs, topic) && s.pubs[p].returned
    requires DistinctIds(subs) && i < |subs| && subs[i].topic == topic && subs[i].queue != ""
    ensures Everywhere(s)[Copy(p, subs[i].queue)] == 1
    ensures j < |subs| && subs[j].topic == topic && subs[j].queue == subs[i].queue && Has(s, Copy(p, subs[i].queue), j)
  {
    InNamedGroup(subs, topic, i);
    j := ReturnedIsHad(run, s, p, subs[i].queue);
    MemberIs(subs, topic, subs[i].queue, j);
    assert subs[j].id != subs[i].queue;
  }

  lemma OnlyMembersHave(run: seq<Action>, s: State, c: Copy, j: nat, subs: seq<Sub>, topic: string)
    requires After(INIT, run) == Some(s) && Grouped(s, c.pub, subs, topic) && Has(s, c, j)
    ensures j < |subs| && subs[j].topic == topic
    ensures c.group == if subs[j].queue != "" then subs[j].queue else subs[j].id
  {
    HasIsMember(run, s, c, j);
    MemberIs(subs, topic, c.group, j);
  }

  /** Main result. When a publish has returned, every subscriber of its topic that was registered when it began
      and names no queue has a copy of its own, of those that name the same queue one has the copy, and
      nobody else has any. */
  lemma FanOut(before: seq<Action>, p: nat, topic: string, after: seq<Action>, s: State)
    requires After(INIT, before + [PublishBegins(p, topic)] + after) == Some(s)
    requires p in s.pubs && s.pubs[p].returned
    requires After(INIT, before).Some? && DistinctIds(After(INIT, before).value.subs)
    ensures var subs := After(INIT, before).value.subs;
      && (forall i | 0 <= i < |subs| && subs[i].topic == topic && subs[i].queue == "" ::
            Has(s, Copy(p, subs[i].id), i) && Everywhere(s)[Copy(p, subs[i].id)] == 1)
      && (forall i | 0 <= i < |subs| && subs[i].topic == topic && subs[i].queue != "" ::
            && Everywhere(s)[Copy(p, subs[i].queue)] == 1
            && exists j :: 0 <= j < |subs| && subs[j].topic == topic && subs[j].queue == subs[i].queue
                           && Has(s, Copy(p, subs[i].queue), j))
      && (forall c: Copy, j: nat | c.pub == p && Has(s, c, j) ::
            && j < |subs| && subs[j].topic == topic
            && c.group == if subs[j].queue != "" then subs[j].queue else subs[j].id)
  {
    var subs, run := After(INIT, before).value.subs, before + [PublishBegins(p, topic)] + after;
    GroupsOfPublish(before, p, topic, after, s);
    forall i | 0 <= i < |subs| && subs[i].topic == topic && subs[i].queue == ""
      ensures Has(s, Copy(p, subs[i].id), i) && Everywhere(s)[Copy(p, subs[i].id)] == 1
    {
      AloneHas(run, s, p, subs, topic, i);
    }
    forall i | 0 <= i < |subs| && subs[i].topic == topic && subs[i].queue != ""
      ensures Everywhere(s)[Copy(p, subs[i].queue)] == 1
      ensures exists j :: 0 <= j < |subs| && subs[j].topic == topic && subs[j].queue == subs[i].queue
                          && Has(s, Copy(p, subs[i].queue), j)
    {
      var j := QueueHas(run, s, p, subs, topic, i);
    }
    forall c: Copy, j: nat | c.pub == p && Has(s, c, j)
      ensures j < |subs| && subs[j].topic == topic
      ensures c.group == if subs[j].queue != "" then subs[j].queue else subs[j].id
    {
      OnlyMembersHave(run, s, c, j, subs, topic);
    }
  }

  // ---- The other steps ----

  lemma StepFlags(s: State, a: Action)
    requires Enabled(s, a)
    ensures Next(s, a).connected <==> a.Connect? || (s.connected && !a.Disconnect?)
    ensures Next(s, a).overflowed <==> a.SpawnSender? || s.overflowed
  {
  }

  /** `Connect` is called at position `k` of the run, and no `Disconnect` later. */
  predicate LastConnect(run: seq<Action>, k: nat) {
    k < |run| && run[k].Connect? && forall j | k < j < |run| :: !run[j].Disconnect?
  }

  lemma LastConnectAppends(run: seq<Action>, k: nat)
    requires run != []
    ensures LastConnect(run, k) <==>
              (run[|run| - 1].Connect? && k == |run| - 1)
              || (LastConnect(run[..|run| - 1], k) && !run[|run| - 1].Disconnect?)
  {
    var n := |run| - 1;
    assert forall j | 0 <= j < n :: run[..n][j] == run[j];
  }

  /** The broker is connected exactly if it was connected at some point and not disconnected later. */
  lemma {:induction false} ConnectedIff(run: seq<Action>)
    requires After(INIT, run).Some?
    ensures After(INIT, run).value.connected <==> exists k: nat :: LastConnect(run, k)
    decreases |run|
  {
    if run == [] {
    } else {
      var n := |run| - 1;
      ConnectedIff(run[..n]);
      StepFlags(After(INIT, run[..n]).value, run[n]);
      forall k: nat
        ensures LastConnect(run, k) <==>
                  (run[n].Connect? && k == n) || (LastConnect(run[..n], k) && !run[n].Disconnect?)
      {
        LastConnectAppends(run, k);
      }
      assert run[n].Connect? ==> LastConnect(run, n);
    }
  }

  /** A registered subscriber keeps its topic, queue, id and capacity. */
  lemma RegisteredAs(before: seq<Action>, topic: string, queue: string, id: string, cap: nat, after: seq<Action>,
                     s: State)
    requires After(INIT, before + [SubscribeRegisters(topic, queue, id, cap)] + after) == Some(s)
    ensures After(INIT, before).Some?
    ensures var i := |After(INIT, before).value.subs|;
      && i < |s.subs| && s.subs[i].topic == topic && s.subs[i].queue == queue && s.subs[i].id == id
      && s.subs[i].cap == cap
  {
    var a := SubscribeRegisters(topic, queue, id, cap);
    Splits(before, a, after);
    RunKeepsSubs(Next(After(INIT, before).value, a), after);
  }

  /** `Unsubscribe` signals its subscriber, and `Disconnect` of a connected broker all of them, for good. */
  lemma SignalledForGood(before: seq<Action>, a: Action, after: seq<Action>, s: State, i: nat)
    requires After(INIT, before + [a] + after) == Some(s)
    requires After(INIT, before).Some? && i < |After(INIT, before).value.subs|
    requires a == Unsubscribe(i) || (a == Disconnect && After(INIT, before).value.connected)
    ensures i < |s.subs| && s.subs[i].exitSignal
  {
    Splits(before, a, after);
    RunKeepsSubs(Next(After(INIT, before).value, a), after);
  }

  /** A subscriber that was signalled can exit whenever it is not handling anything. */
  lemma SignalledCanExit(s: State, i: nat)
    requires i < |s.subs| && s.subs[i].exitSignal && !s.subs[i].exited
    ensures s.subs[i].busy.None? ==> Enabled(s, Exit(i)) && Exited(Next(s, Exit(i)), i)
    ensures s.subs[i].busy.Some? ==> Enabled(s, Finish(i)) && Enabled(Next(s, Finish(i)), Exit(i))
  {
  }

  predicate Overflows(run: seq<Action>) {
    exists k :: 0 <= k < |run| && run[k].SpawnSender?
  }

  lemma OverflowsAppends(run: seq<Action>)
    requires run != []
    ensures Overflows(run) <==> Overflows(run[..|run| - 1]) || run[|run| - 1].SpawnSender?
  {
    var n := |run| - 1;
    assert forall k | 0 <= k < n :: run[..n][k] == run[k];
  }

  /** A run has overflowed exactly if some publish had to leave a copy to a goroutine. */
  lemma {:induction false} OverflowIff(run: seq<Action>)
    requires After(INIT, run).Some?
    ensures After(INIT, run).value.overflowed <==> Overflows(run)
    decreases |run|
  {
    if run == [] {
    } else {
      var n := |run| - 1;
      OverflowIff(run[..n]);
      StepFlags(After(INIT, run[..n]).value, run[n]);
      OverflowsAppends(run);
    }
  }

  /** A publish that had returned when another began counts as earlier. */
  lemma EarlierIff(before: seq<Action>, p: nat, topic: string, after: seq<Action>, s: State, q: nat)
    requires After(INIT, before + [PublishBegins(p, topic)] + after) == Some(s)
    ensures After(INIT, before).Some? && p in s.pubs
    ensures var t := After(INIT, before).value; q in s.pubs[p].before <==> q in t.pubs && t.pubs[q].returned
  {
    Splits(before, PublishBegins(p, topic), after);
    RunKeepsSubs(Next(After(INIT, before).value, PublishBegins(p, topic)), after);
  }
}
