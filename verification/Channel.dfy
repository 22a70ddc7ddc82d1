/** The in-process broker (`broker/mchannel/channel.go`): bounded queues, consumer-group fan-out,
    overflow goroutines and consumer goroutines, as steps of any number of concurrent publishers and
    subscribers. */
module Channel {
  import opened Prelude

  /** The one copy of publish `pub` that consumer group `group` is to receive. */
  datatype Copy = Copy(pub: nat, group: string)

  /** A subscriber: its bounded queue, the event its goroutine is handling, and the handled ones.
      `exitSignal` is the one-slot `exit` channel. */
  datatype Sub = Sub(topic: string, queue: string, id: string, cap: nat, pending: seq<Copy>, busy: Option<Copy>,
                     handled: seq<Copy>, exitSignal: bool, exited: bool)

  /** A `Publish` call: its groups with their members (indices of subscribers), the groups still to
      be served, the member being tried, and the publishes that had returned when it began. */
  datatype Pub = Pub(groups: map<string, seq<nat>>, todo: set<string>, current: Option<(string, nat)>, returned: bool,
                     before: set<nat>)

  /** An overflow goroutine blocked on a full queue. */
  datatype Blocked = Blocked(copy: Copy, to: nat)

  /** A copy that entered a subscriber. */
  datatype Sent = Sent(copy: Copy, to: nat)

  /** `checked` counts `Subscribe` calls between their connection check and their registration. */
  datatype State = State(connected: bool, checked: nat, subs: seq<Sub>, pubs: map<nat, Pub>, blocked: seq<Blocked>,
                         sent: seq<Sent>, overflowed: bool)

  const INIT: State := State(false, 0, [], map[], [], [], false)

  // ---- Grouping ----

  /** Subscribers without a queue name form a group of their own. */
  function GroupOf(sub: Sub): string {
    if sub.queue == "" then sub.id else sub.queue
  }

  /** The subscribers of a topic, in the order of their registration. */
  function Snapshot(subs: seq<Sub>, topic: string): seq<nat> {
    if subs == [] then []
    else var n := |subs| - 1;
      Snapshot(subs[..n], topic) + (if subs[n].topic == topic then [n] else [])
  }

  predicate InRange(subs: seq<Sub>, listed: seq<nat>) {
    forall k | 0 <= k < |listed| :: listed[k] < |subs|
  }

  /** The members of one group among the listed subscribers, in order. */
  function Members(subs: seq<Sub>, listed: seq<nat>, group: string): seq<nat>
    requires InRange(subs, listed)
  {
    if listed == [] then []
    else var n := |listed| - 1;
      Members(subs, listed[..n], group) + (if GroupOf(subs[listed[n]]) == group then [listed[n]] else [])
  }

  /** The map that the grouping loop of `Publish` builds. */
  function Groups(subs: seq<Sub>, listed: seq<nat>): map<string, seq<nat>>
    requires InRange(subs, listed)
  {
    map g | g in (set i | i in listed :: GroupOf(subs[i])) :: Members(subs, listed, g)
  }

  lemma {:induction false} SnapshotFacts(subs: seq<Sub>, topic: string)
    ensures forall i :: i in Snapshot(subs, topic) <==> 0 <= i < |subs| && subs[i].topic == topic
    ensures forall j, k | 0 <= j < k < |Snapshot(subs, topic)| :: Snapshot(subs, topic)[j] < Snapshot(subs, topic)[k]
  {
    if subs == [] {
    } else {
      var n := |subs| - 1;
      SnapshotFacts(subs[..n], topic);
      var rest := Snapshot(subs[..n], topic);
      assert forall k | 0 <= k < |rest| :: rest[k] in rest;
    }
  }

  lemma SnapshotInRange(subs: seq<Sub>, topic: string)
    ensures InRange(subs, Snapshot(subs, topic))
  {
    SnapshotFacts(subs, topic);
    var listed := Snapshot(subs, topic);
    assert forall k | 0 <= k < |listed| :: listed[k] in listed;
  }

  lemma {:induction false} MembersFacts(subs: seq<Sub>, listed: seq<nat>, group: string)
    requires InRange(subs, listed)
    ensures forall i :: i in Members(subs, listed, group) <==> i in listed && GroupOf(subs[i]) == group
  {
    if listed == [] {
    } else {
      var n := |listed| - 1;
      MembersFacts(subs, listed[..n], group);
      assert listed == listed[..n] + [listed[n]];
    }
  }

  lemma {:induction false} MembersInRange(subs: seq<Sub>, listed: seq<nat>, group: string)
    requires InRange(subs, listed)
    ensures InRange(subs, Members(subs, listed, group))
  {
    if listed == [] {
    } else {
      MembersInRange(subs, listed[..|listed| - 1], group);
    }
  }

  lemma MembersExtend(subs: seq<Sub>, was: seq<nat>, i: nat, group: string)
    requires InRange(subs, was) && i < |subs|
    ensures InRange(subs, was + [i])
    ensures Members(subs, was + [i], group)
         == Members(subs, was, group) + (if GroupOf(subs[i]) == group then [i] else [])
  {
    assert (was + [i])[..|was|] == was;
  }

  lemma GroupKeysExtend(subs: seq<Sub>, was: seq<nat>, i: nat)
    requires InRange(subs, was) && i < |subs| && InRange(subs, was + [i])
    ensures Groups(subs, was + [i]).Keys == Groups(subs, was).Keys + {GroupOf(subs[i])}
  {
    var now := was + [i];
    assert forall j :: j in now <==> j in was || j == i;
  }

  /** Appending a subscriber to its group. */
  function AddTo(groups: map<string, seq<nat>>, g: string, i: nat): map<string, seq<nat>> {
    groups[g := (if g in groups then groups[g] else []) + [i]]
  }

  lemma GroupsExtendAt(subs: seq<Sub>, was: seq<nat>, i: nat, g: string)
    requires InRange(subs, was) && i < |subs| && InRange(subs, was + [i])
    requires g in Groups(subs, was + [i])
    ensures g in AddTo(Groups(subs, was), GroupOf(subs[i]), i)
    ensures Groups(subs, was + [i])[g] == AddTo(Groups(subs, was), GroupOf(subs[i]), i)[g]
  {
    GroupKeysExtend(subs, was, i);
    MembersExtend(subs, was, i, g);
    if g !in Groups(subs, was) {
      NoMembers(subs, was, g);
    }
  }

  lemma GroupsExtend(subs: seq<Sub>, was: seq<nat>, i: nat)
    requires InRange(subs, was) && i < |subs| && InRange(subs, was + [i])
    ensures Groups(subs, was + [i]) == AddTo(Groups(subs, was), GroupOf(subs[i]), i)
  {
    var now, next := Groups(subs, was + [i]), AddTo(Groups(subs, was), GroupOf(subs[i]), i);
    GroupKeysExtend(subs, was, i);
    assert now.Keys == next.Keys;
    forall g | g in now
      ensures now[g] == next[g]
    {
      GroupsExtendAt(subs, was, i, g);
    }
  }

  /** The grouping loop. */
  method GroupSubs(subs: seq<Sub>, listed: seq<nat>) returns (groups: map<string, seq<nat>>)
    requires InRange(subs, listed)
    ensures groups == Groups(subs, listed)
  {
    groups := map[];
    for n := 0 to |listed|
      invariant groups == Groups(subs, listed[..n])
    {
      var sub := subs[listed[n]];
      var group := sub.queue;
      if group == "" {
        group := sub.id;
      }
      assert listed[..n + 1] == listed[..n] + [listed[n]];
      GroupsExtend(subs, listed[..n], listed[n]);
      groups := groups[group := (if group in groups then groups[group] else []) + [listed[n]]];
    }
    assert listed[..|listed|] == listed;
  }

  lemma {:induction false} NoMembers(subs: seq<Sub>, listed: seq<nat>, group: string)
    requires InRange(subs, listed)
    requires group !in Groups(subs, listed)
    ensures Members(subs, listed, group) == []
  {
    if listed == [] {
    } else {
      var n := |listed| - 1;
      assert GroupOf(subs[listed[n]]) in Groups(subs, listed) by { assert listed[n] in listed; }
      assert forall i | i in listed[..n] :: i in listed;
      NoMembers(subs, listed[..n], group);
    }
  }

  predicate InOrder(listed: seq<nat>) {
    forall j, k | 0 <= j < k < |listed| :: listed[j] < listed[k]
  }

  /** Members are listed in the order of their registration. */
  lemma {:induction false} MembersInOrder(subs: seq<Sub>, listed: seq<nat>, group: string)
    requires InRange(subs, listed) && InOrder(listed)
    ensures InOrder(Members(subs, listed, group))
  {
    if listed == [] {
    } else {
      var n := |listed| - 1;
      var rest := Members(subs, listed[..n], group);
      MembersInOrder(subs, listed[..n], group);
      MembersFacts(subs, listed[..n], group);
      assert forall k | 0 <= k < |rest| :: rest[k] in rest && rest[k] in listed[..n];
    }
  }

  /** The grouping partitions the snapshot: every subscriber of the topic is in exactly one group, the
      one its queue or id names, and no group is empty. */
  lemma GroupsPartition(subs: seq<Sub>, topic: string)
    ensures var listed := Snapshot(subs, topic);
      && InRange(subs, listed)
      && var groups := Groups(subs, listed);
      && (forall i | 0 <= i < |subs| && subs[i].topic == topic ::
            GroupOf(subs[i]) in groups && i in groups[GroupOf(subs[i])])
      && (forall g, i | g in groups && i in groups[g] ::
            0 <= i < |subs| && subs[i].topic == topic && GroupOf(subs[i]) == g)
      && (forall g | g in groups :: groups[g] != [])
      && (forall g | g in groups :: InOrder(groups[g]))
  {
    SnapshotInRange(subs, topic);
    SnapshotFacts(subs, topic);
    var listed := Snapshot(subs, topic);
    var groups := Groups(subs, listed);
    forall g | g in groups
      ensures forall i :: i in groups[g] <==> i in listed && GroupOf(subs[i]) == g
      ensures groups[g] != [] && InOrder(groups[g])
    {
      MembersInOrder(subs, listed, g);
      MembersFacts(subs, listed, g);
      var i :| i in listed && GroupOf(subs[i]) == g;
      assert i in groups[g];
    }
  }

  /** A subscriber of the topic is in the group that its queue names, or its id if it names no queue. */
  lemma InNamedGroup(subs: seq<Sub>, topic: string, i: nat)
    requires i < |subs| && subs[i].topic == topic
    ensures InRange(subs, Snapshot(subs, topic))
    ensures var name := if subs[i].queue != "" then subs[i].queue else subs[i].id;
      name in Groups(subs, Snapshot(subs, topic)) && i in Groups(subs, Snapshot(subs, topic))[name]
  {
    SnapshotInRange(subs, topic);
    SnapshotFacts(subs, topic);
    MembersFacts(subs, Snapshot(subs, topic), if subs[i].queue != "" then subs[i].queue else subs[i].id);
  }

  /** Conversely, a member of a group is a subscriber of the topic with that name. */
  lemma MemberIs(subs: seq<Sub>, topic: string, g: string, i: nat)
    requires InRange(subs, Snapshot(subs, topic))
    requires g in Groups(subs, Snapshot(subs, topic)) && i in Groups(subs, Snapshot(subs, topic))[g]
    ensures i < |subs| && subs[i].topic == topic
    ensures g == if subs[i].queue != "" then subs[i].queue else subs[i].id
  {
    SnapshotFacts(subs, topic);
    MembersFacts(subs, Snapshot(subs, topic), g);
  }

  lemma OneInOrder(listed: seq<nat>, i: nat)
    requires InOrder(listed) && i in listed && forall j | j in listed :: j == i
    ensures listed == [i]
  {
    assert |listed| <= 1 || listed[0] < listed[1];
    assert forall k | 0 <= k < |listed| :: listed[k] in listed;
  }

  /** No two subscribers have the same id, and none has the queue name, or the lack of one, as its id. */
  predicate DistinctIds(subs: seq<Sub>) {
    && (forall i, j | 0 <= i < j < |subs| :: subs[i].id != subs[j].id)
    && (forall i, j | 0 <= i < |subs| && 0 <= j < |subs| :: subs[i].id != subs[j].queue)
  }

  lemma SameId(subs: seq<Sub>, i: nat, j: nat)
    requires DistinctIds(subs) && i < |subs| && j < |subs| && subs[i].id == subs[j].id
    ensures i == j
  {
  }

  /** Main result on grouping. Two subscribers of a topic share a group, and so a copy of each message, if and only
      if they name the same queue. */
  lemma SameGroupIff(subs: seq<Sub>, topic: string, i: nat, j: nat)
    requires DistinctIds(subs) && i < |subs| && j < |subs| && i != j
    requires subs[i].topic == topic && subs[j].topic == topic
    ensures InRange(subs, Snapshot(subs, topic))
    ensures var groups := Groups(subs, Snapshot(subs, topic));
      (exists g :: g in groups && i in groups[g] && j in groups[g]) <==> subs[i].queue == subs[j].queue != ""
  {
    InNamedGroup(subs, topic, i);
    InNamedGroup(subs, topic, j);
    var groups := Groups(subs, Snapshot(subs, topic));
    if g :| g in groups && i in groups[g] && j in groups[g] {
      MemberIs(subs, topic, g, i);
      MemberIs(subs, topic, g, j);
      assert subs[i].id != subs[j].id;
    }
  }

  /** A subscriber without a queue name is the only member of a group. */
  lemma AloneWithoutQueue(subs: seq<Sub>, topic: string, i: nat)
    requires DistinctIds(subs) && i < |subs| && subs[i].topic == topic && subs[i].queue == ""
    ensures InRange(subs, Snapshot(subs, topic))
    ensures var groups := Groups(subs, Snapshot(subs, topic)); subs[i].id in groups && groups[subs[i].id] == [i]
  {
    InNamedGroup(subs, topic, i);
    var g, listed := subs[i].id, Snapshot(subs, topic);
    var members := Groups(subs, listed)[g];
    SnapshotFacts(subs, topic);
    MembersInOrder(subs, listed, g);
    forall j | j in members
      ensures j == i
    {
      MemberIs(subs, topic, g, j);
      assert subs[i].id != subs[j].queue;
      SameId(subs, i, j);
    }
    OneInOrder(members, i);
  }

  // ---- Steps ----

  datatype Action =
    | Connect
    | Disconnect
    | SubscribeChecks
    | SubscribeRegisters(topic: string, queue: string, id: string, cap: nat)
    | Unsubscribe(i: nat)
    | PublishBegins(p: nat, topic: string)
    | PickGroup(p: nat, group: string)
    | TryMember(p: nat, parked: bool)
    | SpawnSender(p: nat)
    | PublishReturns(p: nat)
    | SenderProceeds(k: nat)
    | Take(i: nat)
    | Finish(i: nat)
    | Exit(i: nat)

  /** The consumer goroutine is at its select. */
  predicate Idle(sub: Sub) {
    sub.busy.None? && !sub.exited
  }

  /** A send to the subscriber's channel can go through: the buffer has room, or the channel is
      unbuffered and its receiver is waiting. */
  predicate Receptive(sub: Sub) {
    |sub.pending| < sub.cap || (sub.cap == 0 && Idle(sub))
  }

  function Receive(sub: Sub, c: Copy): Sub
    requires Receptive(sub)
  {
    if |sub.pending| < sub.cap then sub.(pending := sub.pending + [c]) else sub.(busy := Some(c))
  }

  predicate Trying(s: State, p: nat) {
    && p in s.pubs && s.pubs[p].current.Some?
    && s.pubs[p].current.value.0 in s.pubs[p].groups
  }

  /** The member that publish `p` tries next, if any is left in its group. */
  function Target(s: State, p: nat): Option<nat>
    requires Trying(s, p)
  {
    var (g, k) := s.pubs[p].current.value;
    if k < |s.pubs[p].groups[g]| && s.pubs[p].groups[g][k] < |s.subs| then Some(s.pubs[p].groups[g][k]) else None
  }

  predicate Enabled(s: State, a: Action) {
    match a
    case Connect => true
    case Disconnect => true
    case SubscribeChecks => s.connected
    case SubscribeRegisters(_, _, _, _) => s.checked > 0
    case Unsubscribe(i) => i < |s.subs|
    case PublishBegins(p, _) => s.connected && p !in s.pubs
    case PickGroup(p, g) => p in s.pubs && s.pubs[p].current.None? && g in s.pubs[p].todo
    case TryMember(p, _) => Trying(s, p) && Target(s, p).Some?
    case SpawnSender(p) =>
      Trying(s, p) && Target(s, p).None? && s.pubs[p].groups[s.pubs[p].current.value.0] != []
    case PublishReturns(p) => p in s.pubs && s.pubs[p].current.None? && s.pubs[p].todo == {}
    case SenderProceeds(k) => k < |s.blocked| && s.blocked[k].to < |s.subs| && Receptive(s.subs[s.blocked[k].to])
    case Take(i) => i < |s.subs| && Idle(s.subs[i]) && s.subs[i].pending != []
    case Finish(i) => i < |s.subs| && s.subs[i].busy.Some?
    case Exit(i) => i < |s.subs| && Idle(s.subs[i]) && s.subs[i].exitSignal
  }

  function Returned(s: State): set<nat> {
    set p | p in s.pubs && s.pubs[p].returned
  }

  /** Publish `p` is done with its current group. */
  function Served(pub: Pub): Pub
    requires pub.current.Some?
  {
    pub.(current := None, todo := pub.todo - {pub.current.value.0})
  }

  function Deliver(s: State, c: Copy, to: nat): State
    requires to < |s.subs| && Receptive(s.subs[to])
  {
    s.(subs := s.subs[to := Receive(s.subs[to], c)], sent := s.sent + [Sent(c, to)])
  }

  /** The non-blocking send. Whether the receiver of an unbuffered channel is already waiting when
      the select looks is for the scheduler to say. */
  function Tried(s: State, p: nat, parked: bool): State
    requires Trying(s, p) && Target(s, p).Some?
  {
    var (g, k) := s.pubs[p].current.value;
    var to := Target(s, p).value;
    if Receptive(s.subs[to]) && (parked || s.subs[to].cap > 0)
    then Deliver(s, Copy(p, g), to).(pubs := s.pubs[p := Served(s.pubs[p])])
    else s.(pubs := s.pubs[p := s.pubs[p].(current := Some((g, k + 1)))])
  }

  function Spawned(s: State, p: nat): State
    requires Trying(s, p) && s.pubs[p].groups[s.pubs[p].current.value.0] != []
  {
    var g := s.pubs[p].current.value.0;
    s.(blocked := s.blocked + [Blocked(Copy(p, g), s.pubs[p].groups[g][0])],
       pubs := s.pubs[p := Served(s.pubs[p])], overflowed := true)
  }

  function Took(sub: Sub): Sub
    requires sub.pending != []
  {
    sub.(busy := Some(sub.pending[0]), pending := sub.pending[1..])
  }

  function Finished(sub: Sub): Sub
    requires sub.busy.Some?
  {
    sub.(busy := None, handled := sub.handled + [sub.busy.value])
  }

  function SignalAll(subs: seq<Sub>): seq<Sub> {
    seq(|subs|, i requires 0 <= i < |subs| => subs[i].(exitSignal := true))
  }

  function Begun(s: State, p: nat, topic: string): State {
    SnapshotInRange(s.subs, topic);
    var groups := Groups(s.subs, Snapshot(s.subs, topic));
    s.(pubs := s.pubs[p := Pub(groups, groups.Keys, None, false, Returned(s))])
  }

  function Next(s: State, a: Action): State
    requires Enabled(s, a)
  {
    match a
    case Connect => s.(connected := true)
    case Disconnect => if s.connected then s.(connected := false, subs := SignalAll(s.subs)) else s
    case SubscribeChecks => s.(checked := s.checked + 1)
    case SubscribeRegisters(topic, queue, id, cap) =>
      s.(checked := s.checked - 1, subs := s.subs + [Sub(topic, queue, id, cap, [], None, [], false, false)])
    case Unsubscribe(i) => s.(subs := s.subs[i := s.subs[i].(exitSignal := true)])
    case PublishBegins(p, topic) => Begun(s, p, topic)
    case PickGroup(p, g) => s.(pubs := s.pubs[p := s.pubs[p].(current := Some((g, 0)))])
    case TryMember(p, parked) => Tried(s, p, parked)
    case SpawnSender(p) => Spawned(s, p)
    case PublishReturns(p) => s.(pubs := s.pubs[p := s.pubs[p].(returned := true)])
    case SenderProceeds(k) =>
      Deliver(s, s.blocked[k].copy, s.blocked[k].to).(blocked := s.blocked[..k] + s.blocked[k + 1..])
    case Take(i) => s.(subs := s.subs[i := Took(s.subs[i])])
    case Finish(i) => s.(subs := s.subs[i := Finished(s.subs[i])])
    case Exit(i) => s.(subs := s.subs[i := s.subs[i].(exited := true)])
  }

  function After(s: State, run: seq<Action>): Option<State>
    decreases |run|
  {
    if run == [] then Some(s)
    else match After(s, run[..|run| - 1])
         case None => None
         case Some(mid) => if Enabled(mid, run[|run| - 1]) then Some(Next(mid, run[|run| - 1])) else None
  }
}
