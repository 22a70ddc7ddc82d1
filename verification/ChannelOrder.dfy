/** Order in the in-process broker while no queue overflows. */
module ChannelOrder {
  import opened Prelude
  import opened Channel
  import opened ChannelSafety

  /** What a subscriber has taken in, oldest first. */
  function Stream(sub: Sub): seq<Copy> {
    sub.handled + (if sub.busy.Some? then [sub.busy.value] else []) + sub.pending
  }

  /** The copies that were sent to subscriber `i`, in the order they were sent. */
  function SentTo(sent: seq<Sent>, i: nat): seq<Copy> {
    if sent == [] then []
    else SentTo(sent[..|sent| - 1], i) + (if sent[|sent| - 1].to == i then [sent[|sent| - 1].copy] else [])
  }

  lemma SentToAppends(sent: seq<Sent>, x: Sent, i: nat)
    ensures SentTo(sent + [x], i) == SentTo(sent, i) + (if x.to == i then [x.copy] else [])
  {
    assert (sent + [x])[..|sent|] == sent;
  }

  /** An unbuffered subscriber has nothing queued. */
  ghost predicate StreamsOk(s: State) {
    && (forall i | 0 <= i < |s.subs| :: Stream(s.subs[i]) == SentTo(s.sent, i))
    && (forall i | 0 <= i < |s.subs| :: |s.subs[i].pending| <= s.subs[i].cap)
    && (forall k | 0 <= k < |s.sent| :: s.sent[k].to < |s.subs|)
  }

  lemma ReceiveStreams(sub: Sub, c: Copy)
    requires Receptive(sub) && |sub.pending| <= sub.cap
    ensures Stream(Receive(sub, c)) == Stream(sub) + [c]
  {
  }

  lemma TookStreams(sub: Sub)
    requires Idle(sub) && sub.pending != []
    ensures Stream(Took(sub)) == Stream(sub)
  {
  }

  lemma DeliverStreams(s: State, c: Copy, to: nat)
    requires StreamsOk(s) && to < |s.subs| && Receptive(s.subs[to])
    ensures StreamsOk(Deliver(s, c, to))
  {
    var t := Deliver(s, c, to);
    ReceiveStreams(s.subs[to], c);
    forall i | 0 <= i < |t.subs|
      ensures Stream(t.subs[i]) == SentTo(t.sent, i)
    {
      SentToAppends(s.sent, Sent(c, to), i);
    }
  }

  lemma LocalStreams(s: State, i: nat, sub: Sub)
    requires StreamsOk(s) && i < |s.subs| && Stream(sub) == Stream(s.subs[i]) && |sub.pending| <= sub.cap
    ensures StreamsOk(s.(subs := s.subs[i := sub]))
  {
  }

  lemma {:induction false} SentToNobody(sent: seq<Sent>, i: nat)
    requires forall k | 0 <= k < |sent| :: sent[k].to != i
    ensures SentTo(sent, i) == []
  {
    if sent == [] {
    } else {
      SentToNobody(sent[..|sent| - 1], i);
    }
  }

  lemma SameStreams(s: State, t: State)
    requires StreamsOk(s) && t.subs == s.subs && t.sent == s.sent
    ensures StreamsOk(t)
  {
  }

  lemma SignalStreams(s: State)
    requires StreamsOk(s)
    ensures StreamsOk(s.(connected := false, subs := SignalAll(s.subs)))
  {
    assert forall i | 0 <= i < |s.subs| :: Stream(SignalAll(s.subs)[i]) == Stream(s.subs[i]);
  }

  lemma RegisterStreams(s: State, sub: Sub)
    requires StreamsOk(s) && s.checked > 0 && Stream(sub) == [] && sub.pending == []
    ensures StreamsOk(s.(checked := s.checked - 1, subs := s.subs + [sub]))
  {
    SentToNobody(s.sent, |s.subs|);
  }

  lemma StepKeepsStreams(s: State, a: Action)
    requires StreamsOk(s) && Enabled(s, a)
    ensures StreamsOk(Next(s, a))
  {
    match a
    case Disconnect => SignalStreams(s);
    case SubscribeRegisters(topic, queue, id, cap) =>
      RegisterStreams(s, Sub(topic, queue, id, cap, [], None, [], false, false));
    case Unsubscribe(i) => LocalStreams(s, i, s.subs[i].(exitSignal := true));
    case TryMember(p, parked) =>
      var to := Target(s, p).value;
      if Receptive(s.subs[to]) && (parked || s.subs[to].cap > 0) {
        DeliverStreams(s, Copy(p, s.pubs[p].current.value.0), to);
      }
      SameStreams(if Receptive(s.subs[to]) && (parked || s.subs[to].cap > 0)
                  then Deliver(s, Copy(p, s.pubs[p].current.value.0), to) else s, Tried(s, p, parked));
    case SenderProceeds(k) =>
      DeliverStreams(s, s.blocked[k].copy, s.blocked[k].to);
      SameStreams(Deliver(s, s.blocked[k].copy, s.blocked[k].to), Next(s, a));
    case Take(i) =>
      TookStreams(s.subs[i]);
      LocalStreams(s, i, Took(s.subs[i]));
    case Finish(i) => LocalStreams(s, i, Finished(s.subs[i]));
    case Exit(i) => LocalStreams(s, i, s.subs[i].(exited := true));
    case _ => SameStreams(s, Next(s, a));
  }

  // ---- Order of publishes ----

  /** While nothing has overflowed, a copy is sent before its publish returns, so a publish that had
      returned when another began comes first. Every copy goes to a member of its group, a blocked one to
      the first. */
  ghost predicate OrderOk(s: State) {
    && (!s.overflowed ==> s.blocked == [])
    && (forall p | p in s.pubs :: forall q | q in s.pubs[p].before :: q in s.pubs && s.pubs[q].returned)
    && (forall k | 0 <= k < |s.sent| ::
          var x := s.sent[k];
          x.copy.pub in s.pubs && x.copy.group in s.pubs[x.copy.pub].groups
          && x.to in s.pubs[x.copy.pub].groups[x.copy.group])
    && (!s.overflowed ==> forall j, k | 0 <= j < k < |s.sent| && s.sent[j].copy.pub in s.pubs ::
          s.sent[k].copy.pub !in s.pubs[s.sent[j].copy.pub].before)
    && (forall b | 0 <= b < |s.blocked| ::
          var x := s.blocked[b];
          x.copy.pub in s.pubs && x.copy.group in s.pubs[x.copy.pub].groups
          && s.pubs[x.copy.pub].groups[x.copy.group] != [] && x.to == s.pubs[x.copy.pub].groups[x.copy.group][0])
  }

  /** Publishes keep their groups and their predecessors; one that is still trying has not returned. */
  ghost predicate PubsStay(s: State, t: State) {
    forall p | p in s.pubs ::
      && p in t.pubs && t.pubs[p].groups == s.pubs[p].groups && t.pubs[p].before == s.pubs[p].before
      && (s.pubs[p].returned ==> t.pubs[p].returned)
  }

  predicate MovesPub(a: Action) {
    a.PickGroup? || a.TryMember? || a.SpawnSender? || a.PublishReturns?
  }

  lemma MovedPubStays(s: State, a: Action)
    requires Enabled(s, a) && MovesPub(a)
    ensures PubsStay(s, Next(s, a))
  {
    var t := Next(s, a);
    assert t.pubs == s.pubs[a.p := t.pubs[a.p]];
  }

  lemma StepPubsStay(s: State, a: Action)
    requires Enabled(s, a)
    ensures PubsStay(s, Next(s, a))
  {
    if MovesPub(a) {
      MovedPubStays(s, a);
    } else if a.PublishBegins? {
      assert Next(s, a).pubs == s.pubs[a.p := Next(s, a).pubs[a.p]];
    } else {
      assert Next(s, a).pubs == s.pubs;
    }
  }

  /** One more copy, sent by a publish that has not returned. */
  lemma OneMoreSent(s: State, t: State, x: Sent)
    requires OrderOk(s) && PubsStay(s, t) && t.pubs.Keys == s.pubs.Keys
    requires t.sent == s.sent + [x] && t.blocked == s.blocked && t.overflowed == s.overflowed
    requires x.copy.pub in s.pubs && !s.pubs[x.copy.pub].returned
    requires x.copy.group in s.pubs[x.copy.pub].groups && x.to in s.pubs[x.copy.pub].groups[x.copy.group]
    ensures OrderOk(t)
  {
    assert forall k | 0 <= k < |s.sent| :: t.sent[k] == s.sent[k];
  }

  lemma SendKeepsOrder(s: State, p: nat, parked: bool)
    requires OrderOk(s) && Enabled(s, TryMember(p, parked)) && PubOk(s, s.pubs[p])
    ensures OrderOk(Tried(s, p, parked))
  {
    StepPubsStay(s, TryMember(p, parked));
    var g, to := s.pubs[p].current.value.0, Target(s, p).value;
    assert to in s.pubs[p].groups[g];
    if Receptive(s.subs[to]) && (parked || s.subs[to].cap > 0) {
      OneMoreSent(s, Tried(s, p, parked), Sent(Copy(p, g), to));
    } else {
      QuietKeepsOrder(s, Tried(s, p, parked));
    }
  }

  lemma BeginKeepsOrder(s: State, p: nat, topic: string)
    requires OrderOk(s) && Enabled(s, PublishBegins(p, topic))
    ensures OrderOk(Begun(s, p, topic))
  {
  }

  lemma SpawnKeepsOrder(s: State, p: nat)
    requires OrderOk(s) && Enabled(s, SpawnSender(p))
    ensures OrderOk(Spawned(s, p))
  {
    StepPubsStay(s, SpawnSender(p));
    var t := Spawned(s, p);
    assert forall b | 0 <= b < |s.blocked| :: t.blocked[b] == s.blocked[b];
  }

  lemma ProceedKeepsOrder(s: State, k: nat)
    requires OrderOk(s) && Enabled(s, SenderProceeds(k))
    ensures OrderOk(Next(s, SenderProceeds(k)))
  {
    var t := Next(s, SenderProceeds(k));
    assert s.overflowed;
    assert forall b | 0 <= b < |t.blocked| :: t.blocked[b] == s.blocked[if b < k then b else b + 1];
  }

  lemma QuietKeepsOrder(s: State, t: State)
    requires OrderOk(s) && PubsStay(s, t) && t.pubs.Keys == s.pubs.Keys
    requires t.sent == s.sent && t.blocked == s.blocked && t.overflowed == s.overflowed
    ensures OrderOk(t)
  {
  }

  lemma StepKeepsOrder(s: State, a: Action)
    requires Inv(s) && OrderOk(s) && Enabled(s, a)
    ensures OrderOk(Next(s, a))
  {
    match a
    case TryMember(p, parked) => SendKeepsOrder(s, p, parked);
    case PublishBegins(p, topic) => BeginKeepsOrder(s, p, topic);
    case SpawnSender(p) => SpawnKeepsOrder(s, p);
    case SenderProceeds(k) => ProceedKeepsOrder(s, k);
    case _ => QuietStepKeepsOrder(s, a);
  }

  lemma QuietStepKeepsOrder(s: State, a: Action)
    requires OrderOk(s) && Enabled(s, a)
    requires !a.TryMember? && !a.PublishBegins? && !a.SpawnSender? && !a.SenderProceeds?
    ensures OrderOk(Next(s, a))
  {
    StepPubsStay(s, a);
    QuietKeepsOrder(s, Next(s, a));
  }

  lemma {:induction false} RunKeepsOrder(run: seq<Action>)
    requires After(INIT, run).Some?
    ensures Inv(After(INIT, run).value) && StreamsOk(After(INIT, run).value) && OrderOk(After(INIT, run).value)
    decreases |run|
  {
    if run == [] {
    } else {
      var n := |run| - 1;
      var mid := After(INIT, run[..n]).value;
      RunKeepsOrder(run[..n]);
      StepKeepsInv(mid, run[n]);
      StepKeepsStreams(mid, run[n]);
      StepKeepsOrder(mid, run[n]);
    }
  }

  // ---- Main results ----

  /** Main result. Each subscriber's handled events, the one in hand and its queue are, in this order,
      exactly the copies sent to it, oldest first. In a run without overflow, copies of a publish that
      had returned before another began were sent first, at every subscriber. */
  lemma StreamsFollowPublishOrder(run: seq<Action>, s: State, i: nat, j: nat, k: nat)
    requires After(INIT, run) == Some(s) && i < |s.subs|
    ensures Stream(s.subs[i]) == SentTo(s.sent, i)
    ensures !s.overflowed && j < k < |s.sent| ==>
              s.sent[j].copy.pub in s.pubs && s.sent[k].copy.pub !in s.pubs[s.sent[j].copy.pub].before
  {
    RunKeepsOrder(run);
  }

  lemma {:induction false} SentToFrom(sent: seq<Sent>, i: nat, m: nat) returns (k: nat)
    requires m < |SentTo(sent, i)|
    ensures k < |sent| && sent[k] == Sent(SentTo(sent, i)[m], i)
  {
    var n := |sent| - 1;
    if m < |SentTo(sent[..n], i)| {
      k := SentToFrom(sent[..n], i, m);
    } else {
      k := n;
    }
  }

  lemma {:induction false} InSum(bags: seq<multiset<Copy>>, c: Copy) returns (i: nat)
    requires Sum(bags)[c] == 1
    ensures i < |bags| && bags[i][c] == 1
    ensures forall j | 0 <= j < |bags| && j != i :: bags[j][c] == 0
  {
    var n := |bags| - 1;
    if bags[n][c] == 1 {
      i := n;
      NotInSum(bags[..n], c);
    } else {
      i := InSum(bags[..n], c);
    }
  }

  lemma {:induction false} NotInSum(bags: seq<multiset<Copy>>, c: Copy)
    requires Sum(bags)[c] == 0
    ensures forall j | 0 <= j < |bags| :: bags[j][c] == 0
  {
    if bags == [] {
    } else {
      NotInSum(bags[..|bags| - 1], c);
    }
  }

  lemma StreamOwns(sub: Sub, c: Copy)
    ensures c in Stream(sub) <==> Own(sub)[c] > 0
  {
    var busy := if sub.busy.Some? then [sub.busy.value] else [];
    assert Own(sub)[c] == multiset(sub.pending)[c] + AsBag(sub.busy)[c] + multiset(sub.handled)[c];
    assert c in Stream(sub) <==> c in sub.handled || c in busy || c in sub.pending;
  }

  /** Main result. In a run without overflow, the streams of a group's members partition the events
      published to the group: the copy of a served group is in the stream of exactly one subscriber,
      which is a member of that group. */
  lemma GroupStreamsPartition(run: seq<Action>, s: State, p: nat, g: string) returns (i: nat)
    requires After(INIT, run) == Some(s) && !s.overflowed
    requires p in s.pubs && g in s.pubs[p].groups && g !in s.pubs[p].todo
    ensures i < |s.subs| && i in s.pubs[p].groups[g] && Copy(p, g) in Stream(s.subs[i])
    ensures forall j | 0 <= j < |s.subs| && j != i :: Copy(p, g) !in Stream(s.subs[j])
  {
    RunKeepsOrder(run);
    var c := Copy(p, g);
    CopiesAreConserved(run, s, p, g);
    assert s.blocked == [] && Waiting(s.blocked)[c] == 0;
    i := InSum(Owns(s.subs), c);
    StreamOwns(s.subs[i], c);
    forall j | 0 <= j < |s.subs| && j != i
      ensures c !in Stream(s.subs[j])
    {
      StreamOwns(s.subs[j], c);
      assert Owns(s.subs)[j][c] == 0;
    }
    var m :| 0 <= m < |Stream(s.subs[i])| && Stream(s.subs[i])[m] == c;
    var k := SentToFrom(s.sent, i, m);
  }

  /** Main result, and the converse, with or without overflow: a subscriber's stream holds nothing but
      copies of publishes whose snapshot put it into the copy's group, each of them once. */
  lemma StreamHoldsGroupCopies(run: seq<Action>, s: State, i: nat, c: Copy)
    requires After(INIT, run) == Some(s) && i < |s.subs| && c in Stream(s.subs[i])
    ensures c.pub in s.pubs && c.group in s.pubs[c.pub].groups && c.group !in s.pubs[c.pub].todo
    ensures i in s.pubs[c.pub].groups[c.group]
    ensures multiset(Stream(s.subs[i]))[c] == 1
  {
    RunKeepsOrder(run);
    StreamBag(s.subs[i]);
    OwnInEverywhere(s, i, c);
    CopiesAreConserved(run, s, c.pub, c.group);
    var m :| 0 <= m < |Stream(s.subs[i])| && Stream(s.subs[i])[m] == c;
    var k := SentToFrom(s.sent, i, m);
  }

  lemma StreamBag(sub: Sub)
    ensures multiset(Stream(sub)) == Own(sub)
  {
  }

  lemma {:induction false} InSumAtMost(bags: seq<multiset<Copy>>, i: nat, c: Copy)
    requires i < |bags|
    ensures bags[i][c] <= Sum(bags)[c]
    decreases |bags|
  {
    var n := |bags| - 1;
    if i < n {
      InSumAtMost(bags[..n], i, c);
    }
  }

  lemma OwnInEverywhere(s: State, i: nat, c: Copy)
    requires i < |s.subs|
    ensures Own(s.subs[i])[c] <= Everywhere(s)[c]
  {
    InSumAtMost(Owns(s.subs), i, c);
  }
}
