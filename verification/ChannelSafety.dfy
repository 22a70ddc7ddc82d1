/** Conservation and order in the in-process broker, over every run. */
module ChannelSafety {
  import opened Prelude
  import opened Channel

  // ---- Where copies are ----

  function AsBag(c: Option<Copy>): multiset<Copy> {
    match c
    case None => multiset{}
    case Some(v) => multiset{v}
  }

  /** The copies inside one subscriber: queued, being handled, or handled. */
  function Own(sub: Sub): multiset<Copy> {
    multiset(sub.pending) + AsBag(sub.busy) + multiset(sub.handled)
  }

  function Sum(bags: seq<multiset<Copy>>): multiset<Copy> {
    if bags == [] then multiset{} else Sum(bags[..|bags| - 1]) + bags[|bags| - 1]
  }

  function Owns(subs: seq<Sub>): seq<multiset<Copy>> {
    seq(|subs|, i requires 0 <= i < |subs| => Own(subs[i]))
  }

  /** All copies inside subscribers. */
  function Held(subs: seq<Sub>): multiset<Copy> {
    Sum(Owns(subs))
  }

  function Waiting(blocked: seq<Blocked>): multiset<Copy> {
    if blocked == [] then multiset{} else Waiting(blocked[..|blocked| - 1]) + multiset{blocked[|blocked| - 1].copy}
  }

  /** Every copy anywhere in the broker, with its multiplicity. */
  function Everywhere(s: State): multiset<Copy> {
    Held(s.subs) + Waiting(s.blocked)
  }

  /** The copies that publishes have made so far: one per group already served. */
  function Created(s: State): set<Copy> {
    set p, g | p in s.pubs && g in s.pubs[p].groups && g !in s.pubs[p].todo :: Copy(p, g)
  }

  lemma Swap(a: multiset<Copy>, x: multiset<Copy>, b: multiset<Copy>, y: multiset<Copy>, z: multiset<Copy>)
    requires a + x == b + y
    ensures (a + z) + x == (b + z) + y
  {
    assert (a + z) + x == (a + x) + z;
    assert (b + z) + y == (b + y) + z;
  }

  lemma {:induction false} SumUpdates(bags: seq<multiset<Copy>>, i: nat, bag: multiset<Copy>)
    requires i < |bags|
    ensures Sum(bags[i := bag]) + bags[i] == Sum(bags) + bag
    decreases |bags|
  {
    var n := |bags| - 1;
    if i == n {
      assert bags[i := bag][..n] == bags[..n];
    } else {
      SumUpdates(bags[..n], i, bag);
      assert bags[i := bag][..n] == bags[..n][i := bag];
      Swap(Sum(bags[..n][i := bag]), bags[i], Sum(bags[..n]), bag, bags[n]);
    }
  }

  /** A subscriber that comes to own `more` raises the total by `more`. */
  lemma HeldUpdates(subs: seq<Sub>, i: nat, sub: Sub, more: multiset<Copy>)
    requires i < |subs| && Own(sub) == Own(subs[i]) + more
    ensures Held(subs[i := sub]) == Held(subs) + more
  {
    var bags := Owns(subs);
    assert Owns(subs[i := sub]) == bags[i := bags[i] + more];
    SumUpdates(bags, i, bags[i] + more);
    Cancel(Sum(bags[i := bags[i] + more]), Sum(bags), bags[i], more);
  }

  lemma Cancel(a: multiset<Copy>, b: multiset<Copy>, x: multiset<Copy>, more: multiset<Copy>)
    requires a + x == b + (x + more)
    ensures a == b + more
  {
    forall c: Copy
      ensures a[c] == (b + more)[c]
    {
      assert (a + x)[c] == (b + (x + more))[c];
    }
  }

  lemma HeldAppends(subs: seq<Sub>, sub: Sub)
    ensures Held(subs + [sub]) == Held(subs) + Own(sub)
  {
    assert Owns(subs + [sub]) == Owns(subs) + [Own(sub)];
    assert (Owns(subs) + [Own(sub)])[..|subs|] == Owns(subs);
  }

  lemma HeldSame(a: seq<Sub>, b: seq<Sub>)
    requires |a| == |b| && forall i | 0 <= i < |a| :: Own(a[i]) == Own(b[i])
    ensures Held(a) == Held(b)
  {
    assert Owns(a) == Owns(b);
  }

  lemma WaitingAppends(blocked: seq<Blocked>, b: Blocked)
    ensures Waiting(blocked + [b]) == Waiting(blocked) + multiset{b.copy}
  {
    assert (blocked + [b])[..|blocked|] == blocked;
  }

  function Without(blocked: seq<Blocked>, k: nat): seq<Blocked>
    requires k < |blocked|
  {
    blocked[..k] + blocked[k + 1..]
  }

  lemma WithoutEarlier(blocked: seq<Blocked>, k: nat)
    requires k < |blocked| - 1
    ensures Without(blocked, k) == Without(blocked[..|blocked| - 1], k) + [blocked[|blocked| - 1]]
  {
  }

  lemma WithoutLast(blocked: seq<Blocked>)
    requires blocked != []
    ensures Without(blocked, |blocked| - 1) == blocked[..|blocked| - 1]
  {
  }

  lemma {:induction false} WaitingRemoves(blocked: seq<Blocked>, k: nat)
    requires k < |blocked|
    ensures Waiting(Without(blocked, k)) + multiset{blocked[k].copy} == Waiting(blocked)
    decreases |blocked|
  {
    var n := |blocked| - 1;
    if k == n {
      WithoutLast(blocked);
    } else {
      WithoutEarlier(blocked, k);
      WaitingRemoves(blocked[..n], k);
      WaitingAppends(Without(blocked[..n], k), blocked[n]);
      Regroup(Waiting(Without(blocked[..n], k)), multiset{blocked[n].copy}, multiset{blocked[k].copy});
    }
  }

  // ---- How a step moves copies ----

  /** The copy that a step makes, if it makes one. */
  function Makes(s: State, a: Action): multiset<Copy>
    requires Enabled(s, a)
  {
    match a
    case TryMember(p, parked) =>
      var to := Target(s, p).value;
      if Receptive(s.subs[to]) && (parked || s.subs[to].cap > 0) then multiset{Copy(p, s.pubs[p].current.value.0)}
      else multiset{}
    case SpawnSender(p) => multiset{Copy(p, s.pubs[p].current.value.0)}
    case _ => multiset{}
  }

  lemma ReceiveOwns(sub: Sub, c: Copy)
    requires Receptive(sub)
    ensures Own(Receive(sub, c)) == Own(sub) + multiset{c}
  {
  }

  lemma TookOwns(sub: Sub)
    requires Idle(sub) && sub.pending != []
    ensures Own(Took(sub)) == Own(sub)
  {
    assert sub.pending == [sub.pending[0]] + sub.pending[1..];
  }

  lemma DeliverHolds(s: State, c: Copy, to: nat)
    requires to < |s.subs| && Receptive(s.subs[to])
    ensures Held(Deliver(s, c, to).subs) == Held(s.subs) + multiset{c}
    ensures Deliver(s, c, to).blocked == s.blocked
  {
    ReceiveOwns(s.subs[to], c);
    HeldUpdates(s.subs, to, Receive(s.subs[to], c), multiset{c});
  }

  lemma TryMoves(s: State, p: nat, parked: bool)
    requires Enabled(s, TryMember(p, parked))
    ensures Everywhere(Tried(s, p, parked)) == Everywhere(s) + Makes(s, TryMember(p, parked))
  {
    var to := Target(s, p).value;
    if Receptive(s.subs[to]) && (parked || s.subs[to].cap > 0) {
      var c := Copy(p, s.pubs[p].current.value.0);
      DeliverHolds(s, c, to);
      Regroup(Held(s.subs), Waiting(s.blocked), multiset{c});
    }
  }

  lemma Regroup(a: multiset<Copy>, b: multiset<Copy>, c: multiset<Copy>)
    ensures (a + c) + b == (a + b) + c
  {
  }

  lemma SpawnMoves(s: State, p: nat)
    requires Enabled(s, SpawnSender(p))
    ensures Everywhere(Spawned(s, p)) == Everywhere(s) + Makes(s, SpawnSender(p))
  {
    var g := s.pubs[p].current.value.0;
    WaitingAppends(s.blocked, Blocked(Copy(p, g), s.pubs[p].groups[g][0]));
  }

  lemma SenderMoves(s: State, k: nat)
    requires Enabled(s, SenderProceeds(k))
    ensures Everywhere(Next(s, SenderProceeds(k))) == Everywhere(s)
  {
    DeliverHolds(s, s.blocked[k].copy, s.blocked[k].to);
    WaitingRemoves(s.blocked, k);
    var rest := Waiting(s.blocked[..k] + s.blocked[k + 1..]);
    Regroup(Held(s.subs), rest, multiset{s.blocked[k].copy});
  }

  lemma FinishedOwns(sub: Sub)
    requires sub.busy.Some?
    ensures Own(Finished(sub)) == Own(sub)
  {
  }

  lemma LocalMoves(subs: seq<Sub>, i: nat, sub: Sub)
    requires i < |subs| && Own(sub) == Own(subs[i])
    ensures Held(subs[i := sub]) == Held(subs)
  {
    HeldUpdates(subs, i, sub, multiset{});
  }

  /** A step adds the copy it makes and otherwise only moves copies around. */
  lemma StepMoves(s: State, a: Action)
    requires Enabled(s, a)
    ensures Everywhere(Next(s, a)) == Everywhere(s) + Makes(s, a)
  {
    match a
    case Disconnect => HeldSame(s.subs, SignalAll(s.subs));
    case SubscribeRegisters(topic, queue, id, cap) =>
      HeldAppends(s.subs, Sub(topic, queue, id, cap, [], None, [], false, false));
    case TryMember(p, parked) => TryMoves(s, p, parked);
    case SpawnSender(p) => SpawnMoves(s, p);
    case SenderProceeds(k) => SenderMoves(s, k);
    case Unsubscribe(i) => LocalMoves(s.subs, i, s.subs[i].(exitSignal := true));
    case Take(i) =>
      TookOwns(s.subs[i]);
      LocalMoves(s.subs, i, Took(s.subs[i]));
    case Finish(i) =>
      FinishedOwns(s.subs[i]);
      LocalMoves(s.subs, i, Finished(s.subs[i]));
    case Exit(i) => LocalMoves(s.subs, i, s.subs[i].(exited := true));
    case _ =>
  }

  // ---- The invariant ----

  ghost predicate PubOk(s: State, pub: Pub) {
    && pub.todo <= pub.groups.Keys
    && (pub.current.Some? ==> pub.current.value.0 in pub.todo)
    && (pub.returned ==> pub.todo == {} && pub.current.None?)
    && (forall g | g in pub.groups :: pub.groups[g] != [] && InRange(s.subs, pub.groups[g]))
  }

  ghost predicate Inv(s: State) {
    && Everywhere(s) == multiset(Created(s))
    && (forall p | p in s.pubs :: PubOk(s, s.pubs[p]))
    && QueuesOk(s.subs)
    && TargetsOk(s)
  }

  lemma BegunOk(s: State, p: nat, topic: string)
    ensures PubOk(s, Begun(s, p, topic).pubs[p])
  {
    GroupsPartition(s.subs, topic);
    var groups := Groups(s.subs, Snapshot(s.subs, topic));
    forall g | g in groups
      ensures InRange(s.subs, groups[g])
    {
      SnapshotInRange(s.subs, topic);
      MembersInRange(s.subs, Snapshot(s.subs, topic), g);
    }
  }

  /** Subscribers are never forgotten. */
  lemma SubsStay(s: State, a: Action)
    requires Enabled(s, a)
    ensures |s.subs| <= |Next(s, a).subs|
  {
  }

  lemma PubStaysOk(s: State, t: State, pub: Pub)
    requires PubOk(s, pub) && |s.subs| <= |t.subs|
    ensures PubOk(t, pub)
  {
  }

  lemma MovedPubOk(s: State, a: Action)
    requires Enabled(s, a) && (a.PickGroup? || a.TryMember? || a.SpawnSender? || a.PublishReturns?)
    requires PubOk(s, s.pubs[a.p])
    ensures PubOk(s, Next(s, a).pubs[a.p])
    ensures Next(s, a).pubs == s.pubs[a.p := Next(s, a).pubs[a.p]]
  {
  }

  lemma StepKeepsPubs(s: State, a: Action)
    requires Inv(s) && Enabled(s, a)
    ensures forall p | p in Next(s, a).pubs :: PubOk(Next(s, a), Next(s, a).pubs[p])
  {
    var t := Next(s, a);
    SubsStay(s, a);
    if a.PublishBegins? {
      BegunOk(s, a.p, a.topic);
    } else if a.PickGroup? || a.TryMember? || a.SpawnSender? || a.PublishReturns? {
      MovedPubOk(s, a);
    } else {
      assert t.pubs == s.pubs;
    }
    forall p | p in t.pubs
      ensures PubOk(t, t.pubs[p])
    {
      PubStaysOk(s, t, t.pubs[p]);
    }
  }

  ghost predicate QueuesOk(subs: seq<Sub>) {
    forall i | 0 <= i < |subs| :: |subs[i].pending| <= subs[i].cap
  }

  lemma StepKeepsQueues(s: State, a: Action)
    requires QueuesOk(s.subs) && Enabled(s, a)
    ensures QueuesOk(Next(s, a).subs)
  {
  }

  ghost predicate TargetsOk(s: State) {
    forall k | 0 <= k < |s.blocked| :: s.blocked[k].to < |s.subs|
  }

  lemma SpawnKeepsTargets(s: State, p: nat)
    requires TargetsOk(s) && Enabled(s, SpawnSender(p)) && PubOk(s, s.pubs[p])
    ensures TargetsOk(Spawned(s, p))
  {
    var g := s.pubs[p].current.value.0;
    assert InRange(s.subs, s.pubs[p].groups[g]);
  }

  lemma ProceedKeepsTargets(s: State, k: nat)
    requires TargetsOk(s) && Enabled(s, SenderProceeds(k))
    ensures TargetsOk(Next(s, SenderProceeds(k)))
  {
    var t := Next(s, SenderProceeds(k));
    assert forall b | 0 <= b < |t.blocked| :: t.blocked[b] == s.blocked[if b < k then b else b + 1];
  }

  lemma OtherLeavesBlocked(s: State, a: Action)
    requires Enabled(s, a) && !a.SpawnSender? && !a.SenderProceeds?
    ensures Next(s, a).blocked == s.blocked
  {
  }

  lemma StepKeepsTargets(s: State, a: Action)
    requires Inv(s) && Enabled(s, a)
    ensures TargetsOk(Next(s, a))
  {
    match a
    case SpawnSender(p) => SpawnKeepsTargets(s, p);
    case SenderProceeds(k) => ProceedKeepsTargets(s, k);
    case _ =>
      OtherLeavesBlocked(s, a);
      SubsStay(s, a);
  }

  lemma ServedCreates(s: State, t: State, p: nat)
    requires Trying(s, p) && PubOk(s, s.pubs[p]) && t.pubs == s.pubs[p := Served(s.pubs[p])]
    ensures var c := Copy(p, s.pubs[p].current.value.0);
      c !in Created(s) && Created(t) == Created(s) + {c}
  {
    var c := Copy(p, s.pubs[p].current.value.0);
    forall d
      ensures d in Created(t) <==> d in Created(s) || d == c
    {
    }
  }

  lemma CreatedSame(s: State, t: State)
    requires forall p, g :: p in t.pubs && g in t.pubs[p].groups && g !in t.pubs[p].todo <==>
                            p in s.pubs && g in s.pubs[p].groups && g !in s.pubs[p].todo
    ensures Created(t) == Created(s)
  {
  }

  lemma QuietCreates(s: State, a: Action)
    requires Enabled(s, a) && !a.TryMember? && !a.SpawnSender?
    ensures Created(Next(s, a)) == Created(s)
  {
    CreatedSame(s, Next(s, a));
  }

  lemma TryCreates(s: State, p: nat, parked: bool)
    requires Enabled(s, TryMember(p, parked)) && PubOk(s, s.pubs[p])
    ensures multiset(Created(Tried(s, p, parked))) == multiset(Created(s)) + Makes(s, TryMember(p, parked))
  {
    var to := Target(s, p).value;
    var t := Tried(s, p, parked);
    if Receptive(s.subs[to]) && (parked || s.subs[to].cap > 0) {
      ServedCreates(s, t, p);
    } else {
      CreatedSame(s, t);
    }
  }

  /** Exactly the copy a step makes becomes a created one, and it was not created before. */
  lemma StepCreates(s: State, a: Action)
    requires Inv(s) && Enabled(s, a)
    ensures multiset(Created(Next(s, a))) == multiset(Created(s)) + Makes(s, a)
  {
    match a
    case TryMember(p, parked) => TryCreates(s, p, parked);
    case SpawnSender(p) => ServedCreates(s, Spawned(s, p), p);
    case _ => QuietCreates(s, a);
  }

  lemma StepKeepsInv(s: State, a: Action)
    requires Inv(s) && Enabled(s, a)
    ensures Inv(Next(s, a))
  {
    StepMoves(s, a);
    StepCreates(s, a);
    StepKeepsPubs(s, a);
    StepKeepsQueues(s, a);
    StepKeepsTargets(s, a);
  }

  lemma {:induction false} RunKeepsInv(run: seq<Action>)
    requires After(INIT, run).Some?
    ensures Inv(After(INIT, run).value)
    decreases |run|
  {
    if run == [] {
    } else {
      var n := |run| - 1;
      RunKeepsInv(run[..n]);
      StepKeepsInv(After(INIT, run[..n]).value, run[n]);
    }
  }

  /** Main result. In every reachable state, for every publish and every group of its snapshot, there
      is exactly one copy once the group has been served and none before, counting all queues,
      blocked overflow senders, running handlers and handled logs together; when the publish has
      returned every group has been served. There are no other copies, and no queue exceeds its
      capacity. */
  lemma CopiesAreConserved(run: seq<Action>, s: State, p: nat, g: string)
    requires After(INIT, run) == Some(s)
    ensures p in s.pubs && g in s.pubs[p].groups ==>
              Everywhere(s)[Copy(p, g)] == (if g in s.pubs[p].todo then 0 else 1)
    ensures p in s.pubs && s.pubs[p].returned ==> s.pubs[p].todo == {}
    ensures !(p in s.pubs && g in s.pubs[p].groups) ==> Everywhere(s)[Copy(p, g)] == 0
    ensures forall i | 0 <= i < |s.subs| :: |s.subs[i].pending| <= s.subs[i].cap
  {
    RunKeepsInv(run);
    assert Everywhere(s)[Copy(p, g)] == if Copy(p, g) in Created(s) then 1 else 0;
  }
}
