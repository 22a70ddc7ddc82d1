/** The consumer's registrations and their broker subscriptions (`consumer/default_consumer.go`), as
    steps: `Subscribe`, and `Start` and `Stop` in their phases, among what happens to the subscriptions
    from outside. A subscription ends when the context its registration came with is cancelled, or when
    anybody disconnects the shared broker; the consumer is not told. */
module Registration {
  import opened Prelude

  /** A registered subscriber; `brokerSub` is nil until the broker has accepted it. */
  datatype Entry = Entry(topic: string, queue: string, autoAck: bool, brokerSub: Option<nat>)

  /** A live broker subscription. */
  datatype Live = Live(topic: string, group: string, autoAck: bool)

  datatype Phase = Resting | Starting | Stopping

  /** `live` are the consumer's subscriptions whose loops run on, of `made` in all. */
  datatype State = State(entries: map<nat, Entry>, registered: nat, started: bool, phase: Phase, connected: bool,
                         live: map<nat, Live>, made: nat)

  const INIT: State := State(map[], 0, false, Resting, false, map[], 0)

  datatype Event =
    | Register(topic: string, queue: string, autoAck: bool)
    | StartSkips
    | StartConnects
    | Bind(k: nat)
    | StartFails
    | StartEnds
    | StopSkips
    | StopBegins
    | Release(k: nat)
    | StopEnds
    | Ends(x: nat)
    | Disconnects
    | Connects

  /** The consumer group a registration ends up in. */
  function EffectiveGroup(name: string, queue: string): string {
    if |queue| > 0 then queue else name
  }

  /** The subscription that `Start` asks the broker for. */
  function LiveFor(name: string, e: Entry): Live {
    Live(e.topic, EffectiveGroup(name, e.queue), e.autoAck)
  }

  ghost predicate Taken(entries: map<nat, Entry>, topic: string, queue: string) {
    exists k :: k in entries && entries[k].topic == topic && entries[k].queue == queue
  }

  predicate AllBound(entries: map<nat, Entry>) {
    forall k | k in entries :: entries[k].brokerSub.Some?
  }

  predicate NoneBound(entries: map<nat, Entry>) {
    forall k | k in entries :: entries[k].brokerSub.None?
  }

  ghost predicate Enabled(s: State, e: Event) {
    match e
    case Register(topic, queue, _) => s.phase == Resting && !Taken(s.entries, topic, queue)
    case StartSkips => s.phase == Resting && s.started
    case StartConnects => s.phase == Resting && !s.started
    case Bind(k) => s.phase == Starting && s.connected && k in s.entries && s.entries[k].brokerSub.None?
    case StartFails => s.phase == Starting
    case StartEnds => s.phase == Starting && AllBound(s.entries)
    case StopSkips => s.phase == Resting && !s.started
    case StopBegins => s.phase == Resting && s.started
    case Release(k) => s.phase == Stopping && k in s.entries
    case StopEnds => s.phase == Stopping && NoneBound(s.entries)
    case Ends(x) => x < s.made
    case Disconnects => true
    case Connects => true
  }

  function Rebound(entries: map<nat, Entry>, k: nat, x: Option<nat>): map<nat, Entry>
    requires k in entries
  {
    entries[k := entries[k].(brokerSub := x)]
  }

  /** Ending a subscription that may have ended already. */
  function Without(live: map<nat, Live>, x: Option<nat>): map<nat, Live> {
    if x.Some? then live - {x.value} else live
  }

  function Next(name: string, s: State, e: Event): State
    requires Enabled(s, e)
  {
    match e
    case Register(topic, queue, autoAck) =>
      s.(entries := s.entries[s.registered := Entry(topic, queue, autoAck, None)], registered := s.registered + 1)
    case StartSkips => s
    case StartConnects => s.(phase := Starting, connected := true)
    case Bind(k) =>
      s.(entries := Rebound(s.entries, k, Some(s.made)), live := s.live[s.made := LiveFor(name, s.entries[k])],
         made := s.made + 1)
    case StartFails => s.(phase := Resting)
    case StartEnds => s.(phase := Resting, started := true)
    case StopSkips => s
    case StopBegins => s.(phase := Stopping)
    case Release(k) =>
      s.(entries := Rebound(s.entries, k, None), live := Without(s.live, s.entries[k].brokerSub))
    case StopEnds => s.(phase := Resting, started := false, connected := false, live := map[])
    case Ends(x) => s.(live := s.live - {x})
    case Disconnects => s.(connected := false, live := map[])
    case Connects => s.(connected := true)
  }

  ghost function After(name: string, s: State, run: seq<Event>): Option<State>
    decreases |run|
  {
    if run == [] then Some(s)
    else match After(name, s, run[..|run| - 1])
         case None => None
         case Some(mid) => if Enabled(mid, run[|run| - 1]) then Some(Next(name, mid, run[|run| - 1])) else None
  }

  lemma RunAppends(name: string, s: State, run: seq<Event>, e: Event)
    requires After(name, s, run).Some? && Enabled(After(name, s, run).value, e)
    ensures After(name, s, run + [e]) == Some(Next(name, After(name, s, run).value, e))
  {
    assert (run + [e])[..|run|] == run;
  }

  // ---- What every run keeps ----

  ghost predicate Distinct(entries: map<nat, Entry>) {
    forall j, k | j in entries && k in entries && j != k ::
      entries[j].topic != entries[k].topic || entries[j].queue != entries[k].queue
  }

  /** Bound entries name different subscriptions, all of them made. */
  ghost predicate BindingsOk(entries: map<nat, Entry>, made: nat) {
    && (forall k | k in entries && entries[k].brokerSub.Some? :: entries[k].brokerSub.value < made)
    && (forall j, k | j in entries && k in entries && j != k && entries[j].brokerSub.Some? ::
          entries[j].brokerSub != entries[k].brokerSub)
  }

  /** Entry `k` has the live subscription `x`, with its topic and acknowledgement mode, in the group that its queue
      or else the service names. */
  predicate Owns(name: string, s: State, k: nat, x: nat) {
    && k in s.entries && s.entries[k].brokerSub == Some(x) && x in s.live
    && s.live[x].topic == s.entries[k].topic && s.live[x].autoAck == s.entries[k].autoAck
    && s.live[x].group == if s.entries[k].queue != "" then s.entries[k].queue else name
  }

  ghost predicate AllOwned(name: string, s: State) {
    forall x | x in s.live :: x < s.made && exists k :: Owns(name, s, k, x)
  }

  ghost predicate Inv(name: string, s: State) {
    && Distinct(s.entries) && BindingsOk(s.entries, s.made) && AllOwned(name, s)
    && (forall k | k in s.entries :: k < s.registered)
    && (s.phase == Starting ==> !s.started) && (s.phase == Stopping ==> s.started)
  }

  lemma RegisterKeeps(name: string, s: State, e: Event)
    requires Inv(name, s) && e.Register? && Enabled(s, e)
    ensures Inv(name, Next(name, s, e))
  {
    var t := Next(name, s, e);
    forall x | x in t.live
      ensures exists k :: Owns(name, t, k, x)
    {
      var k :| Owns(name, s, k, x);
      assert Owns(name, t, k, x);
    }
  }

  lemma RebindKeepsDistinct(entries: map<nat, Entry>, k: nat, x: Option<nat>)
    requires Distinct(entries) && k in entries
    ensures Distinct(Rebound(entries, k, x))
  {
    var next := Rebound(entries, k, x);
    assert forall j | j in next :: next[j].topic == entries[j].topic && next[j].queue == entries[j].queue;
  }

  lemma BindKeeps(name: string, s: State, e: Event)
    requires Inv(name, s) && e.Bind? && Enabled(s, e)
    ensures Inv(name, Next(name, s, e))
  {
    var t := Next(name, s, e);
    RebindKeepsDistinct(s.entries, e.k, Some(s.made));
    forall x | x in t.live
      ensures exists k :: Owns(name, t, k, x)
    {
      if x == s.made {
        assert Owns(name, t, e.k, x);
      } else {
        var k :| Owns(name, s, k, x);
        assert Owns(name, t, k, x);
      }
    }
  }

  lemma ReleaseKeeps(name: string, s: State, e: Event)
    requires Inv(name, s) && e.Release? && Enabled(s, e)
    ensures Inv(name, Next(name, s, e))
  {
    var t := Next(name, s, e);
    RebindKeepsDistinct(s.entries, e.k, None);
    forall x | x in t.live
      ensures exists k :: Owns(name, t, k, x)
    {
      var k :| Owns(name, s, k, x);
      assert Owns(name, t, k, x);
    }
  }

  lemma OtherKeeps(name: string, s: State, e: Event)
    requires Inv(name, s) && Enabled(s, e) && !e.Register? && !e.Bind? && !e.Release?
    ensures Inv(name, Next(name, s, e))
  {
    var t := Next(name, s, e);
    forall x | x in t.live
      ensures exists k :: Owns(name, t, k, x)
    {
      var k :| Owns(name, s, k, x);
      assert Owns(name, t, k, x);
    }
  }

  lemma StepKeepsInv(name: string, s: State, e: Event)
    requires Inv(name, s) && Enabled(s, e)
    ensures Inv(name, Next(name, s, e))
  {
    match e
    case Register(_, _, _) => RegisterKeeps(name, s, e);
    case Bind(_) => BindKeeps(name, s, e);
    case Release(_) => ReleaseKeeps(name, s, e);
    case _ => OtherKeeps(name, s, e);
  }

  lemma {:induction false} RunKeepsInv(name: string, run: seq<Event>)
    requires After(name, INIT, run).Some?
    ensures Inv(name, After(name, INIT, run).value)
    decreases |run|
  {
    if run == [] {
    } else {
      var n := |run| - 1;
      RunKeepsInv(name, run[..n]);
      StepKeepsInv(name, After(name, INIT, run[..n]).value, run[n]);
    }
  }

  /** Main result. In every run, registered (topic, queue) pairs are distinct, and every live subscription
      belongs to exactly one entry: it has the topic and the acknowledgement mode of that entry, and its
      group is the entry's queue, or the service name where the entry has none. */
  lemma LiveBelongsToOne(name: string, run: seq<Event>, s: State, x: nat)
    requires After(name, INIT, run) == Some(s)
    ensures Distinct(s.entries)
    ensures x in s.live ==>
              exists k :: k in s.entries && s.entries[k].brokerSub == Some(x)
                          && s.live[x].topic == s.entries[k].topic && s.live[x].autoAck == s.entries[k].autoAck
                          && s.live[x].group == if s.entries[k].queue != "" then s.entries[k].queue else name
    ensures forall j, k | j in s.entries && k in s.entries
                          && s.entries[j].brokerSub == s.entries[k].brokerSub == Some(x) :: j == k
  {
    RunKeepsInv(name, run);
    if x in s.live {
      var k :| Owns(name, s, k, x);
      assert k in s.entries && s.entries[k].brokerSub == Some(x);
    }
  }

  // ---- What was asked for ----

  /** The registrations of a run, in order. */
  function Registrations(run: seq<Event>): seq<Event> {
    if run == [] then []
    else Registrations(run[..|run| - 1]) + (if run[|run| - 1].Register? then [run[|run| - 1]] else [])
  }

  /** An entry holds what its registration asked for. */
  predicate AsAsked(e: Entry, asked: Event) {
    asked.Register? && e.topic == asked.topic && e.queue == asked.queue && e.autoAck == asked.autoAck
  }

  ghost predicate AllAsAsked(s: State, asked: seq<Event>) {
    && |asked| == s.registered
    && (forall k :: k in s.entries <==> 0 <= k < s.registered)
    && (forall k | 0 <= k < s.registered :: k in s.entries && AsAsked(s.entries[k], asked[k]))
  }

  lemma StepKeepsAsked(name: string, s: State, e: Event, asked: seq<Event>)
    requires Enabled(s, e) && AllAsAsked(s, asked)
    ensures AllAsAsked(Next(name, s, e), asked + (if e.Register? then [e] else []))
  {
  }

  /** In every run, entry `k` is what the `k`-th registration asked for. */
  lemma {:induction false} EntriesAsAsked(name: string, run: seq<Event>)
    requires After(name, INIT, run).Some?
    ensures AllAsAsked(After(name, INIT, run).value, Registrations(run))
    decreases |run|
  {
    if run == [] {
    } else {
      var n := |run| - 1;
      EntriesAsAsked(name, run[..n]);
      StepKeepsAsked(name, After(name, INIT, run[..n]).value, run[n], Registrations(run[..n]));
    }
  }

  predicate Fulfils(name: string, l: Live, asked: Event) {
    && asked.Register? && l.topic == asked.topic && l.autoAck == asked.autoAck
    && l.group == if asked.queue != "" then asked.queue else name
  }

  /** Main result. Every live subscription is what one of the registrations asked for: its topic, its acknowledgement
      mode, and its queue or else the service name as the group. */
  lemma LiveAsAsked(name: string, run: seq<Event>, s: State, x: nat)
    requires After(name, INIT, run) == Some(s) && x in s.live
    ensures exists k :: 0 <= k < |Registrations(run)| && Fulfils(name, s.live[x], Registrations(run)[k])
  {
    RunKeepsInv(name, run);
    EntriesAsAsked(name, run);
    var k: nat :| Owns(name, s, k, x);
    var asked := Registrations(run);
    assert AsAsked(s.entries[k], asked[k]);
    assert Fulfils(name, s.live[x], asked[k]);
  }

  // ---- When a bound entry is live ----

  function Binds(run: seq<Event>): nat {
    if run == [] then 0 else Binds(run[..|run| - 1]) + (if run[|run| - 1].Bind? then 1 else 0)
  }

  predicate EndsIt(e: Event, x: nat) {
    e == Ends(x) || e == Disconnects
  }

  /** Since subscription `x` was made, its context was cancelled or the broker was disconnected. */
  predicate Lost(run: seq<Event>, x: nat) {
    && run != []
    && var n := |run| - 1;
    && (Lost(run[..n], x) || (x < Binds(run[..n]) && EndsIt(run[n], x)))
  }

  lemma {:induction false} BindsAreMade(name: string, run: seq<Event>)
    requires After(name, INIT, run).Some?
    ensures After(name, INIT, run).value.made == Binds(run)
    decreases |run|
  {
    if run == [] {
    } else {
      BindsAreMade(name, run[..|run| - 1]);
    }
  }

  lemma {:induction false} NotMadeNotLost(run: seq<Event>, x: nat)
    requires x >= Binds(run)
    ensures !Lost(run, x)
    decreases |run|
  {
    if run == [] {
    } else {
      NotMadeNotLost(run[..|run| - 1], x);
    }
  }

  /** How one step moves a bound entry's subscription. */
  lemma StepMovesLive(name: string, s: State, e: Event, k: nat, x: nat)
    requires Inv(name, s) && Enabled(s, e)
    requires k in Next(name, s, e).entries && Next(name, s, e).entries[k].brokerSub == Some(x)
    ensures (e == Bind(k) && x == s.made) || (k in s.entries && s.entries[k].brokerSub == Some(x))
    ensures e == Bind(k) && x == s.made ==> x in Next(name, s, e).live
    ensures !(e == Bind(k) && x == s.made) ==> (x in Next(name, s, e).live <==> x in s.live && !EndsIt(e, x))
  {
    match e
    case Bind(j) => BindMovesLive(name, s, j, k, x);
    case Release(j) => ReleaseMovesLive(name, s, j, k, x);
    case StopEnds =>
    case _ => assert Next(name, s, e).made == s.made;
  }

  lemma BindMovesLive(name: string, s: State, j: nat, k: nat, x: nat)
    requires BindingsOk(s.entries, s.made) && Enabled(s, Bind(j))
    requires k in Next(name, s, Bind(j)).entries && Next(name, s, Bind(j)).entries[k].brokerSub == Some(x)
    ensures if j == k then x == s.made && x in Next(name, s, Bind(j)).live
            else k in s.entries && s.entries[k].brokerSub == Some(x)
                 && (x in Next(name, s, Bind(j)).live <==> x in s.live)
  {
  }

  lemma ReleaseMovesLive(name: string, s: State, j: nat, k: nat, x: nat)
    requires BindingsOk(s.entries, s.made) && Enabled(s, Release(j))
    requires k in Next(name, s, Release(j)).entries && Next(name, s, Release(j)).entries[k].brokerSub == Some(x)
    ensures k in s.entries && s.entries[k].brokerSub == Some(x)
    ensures x in Next(name, s, Release(j)).live <==> x in s.live
  {
  }

  /** Main result. A bound entry's subscription is live if and only if since it was made neither its
      context was cancelled nor the broker disconnected. */
  lemma {:induction false} BoundIsLiveIff(name: string, run: seq<Event>, k: nat, x: nat)
    requires After(name, INIT, run).Some?
    requires k in After(name, INIT, run).value.entries
    requires After(name, INIT, run).value.entries[k].brokerSub == Some(x)
    ensures x in After(name, INIT, run).value.live <==> !Lost(run, x)
    decreases |run|
  {
    if run == [] {
    } else {
      var n := |run| - 1;
      var mid := After(name, INIT, run[..n]).value;
      RunKeepsInv(name, run[..n]);
      BindsAreMade(name, run[..n]);
      StepMovesLive(name, mid, run[n], k, x);
      if k in mid.entries && mid.entries[k].brokerSub == Some(x) {
        BoundIsLiveIff(name, run[..n], k, x);
      } else {
        NotMadeNotLost(run[..n], x);
      }
    }
  }

  /** Every entry has a live subscription. */
  ghost predicate AllLive(name: string, s: State) {
    forall k | k in s.entries :: s.entries[k].brokerSub.Some? && Owns(name, s, k, s.entries[k].brokerSub.value)
  }

  /** Nothing that an entry is bound to has been lost. */
  predicate NoneLost(run: seq<Event>, s: State) {
    forall k | k in s.entries && s.entries[k].brokerSub.Some? :: !Lost(run, s.entries[k].brokerSub.value)
  }

  lemma BoundAndLiveOwns(name: string, s: State, k: nat, x: nat)
    requires Inv(name, s) && k in s.entries && s.entries[k].brokerSub == Some(x) && x in s.live
    ensures Owns(name, s, k, x)
  {
    var j :| Owns(name, s, j, x);
  }

  lemma LiveIffNotLost(name: string, run: seq<Event>, s: State, k: nat)
    requires After(name, INIT, run) == Some(s) && k in s.entries && s.entries[k].brokerSub.Some?
    ensures Owns(name, s, k, s.entries[k].brokerSub.value) <==> !Lost(run, s.entries[k].brokerSub.value)
  {
    RunKeepsInv(name, run);
    var x := s.entries[k].brokerSub.value;
    BoundIsLiveIff(name, run, k, x);
    if x in s.live {
      BoundAndLiveOwns(name, s, k, x);
    }
  }

  lemma AllLiveIff(name: string, run: seq<Event>, s: State)
    requires After(name, INIT, run) == Some(s)
    ensures AllLive(name, s) <==> AllBound(s.entries) && NoneLost(run, s)
  {
    forall k | k in s.entries && s.entries[k].brokerSub.Some?
      ensures Owns(name, s, k, s.entries[k].brokerSub.value) <==> !Lost(run, s.entries[k].brokerSub.value)
    {
      LiveIffNotLost(name, run, s, k);
    }
  }

  /** A `Start` that returns nil: it went through, or found the consumer started and did nothing. */
  predicate StartSucceeds(e: Event) {
    e == StartEnds || e == StartSkips
  }

  /** Main result. After a `Start` that returns nil, every entry has a live subscription if and only if none
      of the subscriptions that entries are bound to, by this `Start` or an earlier one, has been lost since
      it was made, and, should the consumer have been started already, every entry was bound. */
  lemma StartLeavesAllLiveIff(name: string, run: seq<Event>, e: Event, s: State)
    requires StartSucceeds(e) && After(name, INIT, run).Some? && After(name, INIT, run + [e]) == Some(s)
    ensures var before := After(name, INIT, run).value;
      AllLive(name, s) <==> (before.started ==> AllBound(before.entries)) && NoneLost(run + [e], s)
  {
    assert (run + [e])[..|run|] == run;
    RunKeepsInv(name, run);
    AllLiveIff(name, run + [e], s);
  }

  // ---- Entries registered after a start ----

  /** A registration has been accepted since the last `Start` went through. */
  predicate RegisteredSince(run: seq<Event>) {
    && run != []
    && var n := |run| - 1;
    && run[n] != StartEnds
    && (run[n].Register? || RegisteredSince(run[..n]))
  }

  /** Main result. What a started consumer has registered since its last `Start` stays unbound, and nothing
      else is. */
  lemma {:induction false} BoundIffNotRegisteredSince(name: string, run: seq<Event>, s: State)
    requires After(name, INIT, run) == Some(s) && s.started && s.phase == Resting
    ensures AllBound(s.entries) <==> !RegisteredSince(run)
    decreases |run|
  {
    if run == [] {
    } else {
      var n := |run| - 1;
      var mid := After(name, INIT, run[..n]).value;
      if run[n].Register? {
        assert mid.registered in s.entries && s.entries[mid.registered].brokerSub.None?;
      } else if run[n] != StartEnds {
        RunKeepsInv(name, run[..n]);
        StartedStays(name, mid, run[n]);
        BoundIffNotRegisteredSince(name, run[..n], mid);
      }
    }
  }

  lemma StartedStays(name: string, s: State, e: Event)
    requires Enabled(s, e) && Next(name, s, e).started && Next(name, s, e).phase == Resting
    requires !e.Register? && e != StartEnds && (s.phase == Starting ==> !s.started)
    ensures s.started && s.phase == Resting && Next(name, s, e).entries == s.entries
  {
  }

  // ---- A condition that can be checked before the call ----

  /** The events of a `Start` that succeeds while nothing happens from outside. */
  predicate QuietStart(run: seq<Event>) {
    && |run| >= 2 && run[0] == StartConnects && run[|run| - 1] == StartEnds
    && forall i | 0 < i < |run| - 1 :: run[i].Bind?
  }

  ghost predicate BoundAreLive(s: State) {
    forall k | k in s.entries && s.entries[k].brokerSub.Some? :: s.entries[k].brokerSub.value in s.live
  }

  lemma BindKeepsBoundLive(name: string, s: State, e: Event)
    requires Inv(name, s) && Enabled(s, e) && (e.Bind? || e == StartConnects || e == StartEnds)
    ensures BoundAreLive(Next(name, s, e)) <==> BoundAreLive(s)
  {
    var t := Next(name, s, e);
    if BoundAreLive(t) {
      forall k | k in s.entries && s.entries[k].brokerSub.Some?
        ensures s.entries[k].brokerSub.value in s.live
      {
        assert t.entries[k].brokerSub == s.entries[k].brokerSub;
      }
    }
  }

  lemma {:induction false} QuietKeepsBoundLive(name: string, s: State, run: seq<Event>)
    requires Inv(name, s) && After(name, s, run).Some?
    requires forall i | 0 <= i < |run| :: run[i].Bind? || run[i] == StartConnects || run[i] == StartEnds
    ensures Inv(name, After(name, s, run).value)
    ensures BoundAreLive(After(name, s, run).value) <==> BoundAreLive(s)
    decreases |run|
  {
    if run == [] {
    } else {
      var n := |run| - 1;
      assert forall i | 0 <= i < n :: run[..n][i] == run[i];
      QuietKeepsBoundLive(name, s, run[..n]);
      StepKeepsInv(name, After(name, s, run[..n]).value, run[n]);
      BindKeepsBoundLive(name, After(name, s, run[..n]).value, run[n]);
    }
  }

  lemma QuietStartThrough(name: string, run: seq<Event>, s: State, start: seq<Event>, t: State)
    requires After(name, INIT, run) == Some(s)
    requires QuietStart(start) && After(name, s, start) == Some(t)
    ensures AllLive(name, t) <==> BoundAreLive(s)
  {
    RunKeepsInv(name, run);
    QuietKeepsBoundLive(name, s, start);
    assert AllBound(t.entries);
    forall k | k in t.entries
      ensures Owns(name, t, k, t.entries[k].brokerSub.value) <==> t.entries[k].brokerSub.value in t.live
    {
      if t.entries[k].brokerSub.value in t.live {
        BoundAndLiveOwns(name, t, k, t.entries[k].brokerSub.value);
      }
    }
  }

  lemma QuietStartSkips(name: string, run: seq<Event>, s: State)
    requires After(name, INIT, run) == Some(s)
    ensures AllLive(name, s) <==> AllBound(s.entries) && BoundAreLive(s)
  {
    RunKeepsInv(name, run);
    forall k | k in s.entries && s.entries[k].brokerSub.Some? && s.entries[k].brokerSub.value in s.live
      ensures Owns(name, s, k, s.entries[k].brokerSub.value)
    {
      BoundAndLiveOwns(name, s, k, s.entries[k].brokerSub.value);
    }
  }

  /** Main result. If nothing happens from outside during a `Start` that returns nil, every entry has a live
      subscription afterwards if and only if those that were bound when it was called still had theirs, and
      the consumer was not started with an entry registered since. */
  lemma QuietStartLeavesAllLiveIff(name: string, run: seq<Event>, s: State, start: seq<Event>, t: State)
    requires After(name, INIT, run) == Some(s) && s.phase == Resting && After(name, s, start) == Some(t)
    requires if s.started then start == [StartSkips] else QuietStart(start)
    ensures AllLive(name, t) <==> BoundAreLive(s) && !(s.started && RegisteredSince(run))
  {
    if s.started {
      assert start[..0] == [];
      BoundIffNotRegisteredSince(name, run, s);
      QuietStartSkips(name, run, s);
    } else {
      QuietStartThrough(name, run, s, start, t);
    }
  }

  // ---- Stop ----

  /** Main result. `Stop` leaves no live subscription if and only if the consumer was started, or all that
      its entries are still bound to, by a last `Start` that failed half-way, has been lost meanwhile. */
  lemma StopLeavesNothingIff(name: string, run: seq<Event>, stop: Event, s: State)
    requires stop == StopEnds || stop == StopSkips
    requires After(name, INIT, run).Some? && After(name, INIT, run + [stop]) == Some(s)
    ensures var before := After(name, INIT, run).value;
      s.live == map[] <==>
      before.started || forall k | k in before.entries && before.entries[k].brokerSub.Some? ::
                          Lost(run, before.entries[k].brokerSub.value)
  {
    assert (run + [stop])[..|run|] == run;
    RunKeepsInv(name, run);
    if stop == StopSkips {
      SkippedStop(name, run, s);
    }
  }

  lemma SkippedStop(name: string, run: seq<Event>, s: State)
    requires After(name, INIT, run) == Some(s)
    ensures s.live == map[] <==>
            forall k | k in s.entries && s.entries[k].brokerSub.Some? :: Lost(run, s.entries[k].brokerSub.value)
  {
    RunKeepsInv(name, run);
    forall k | k in s.entries && s.entries[k].brokerSub.Some?
      ensures s.entries[k].brokerSub.value in s.live <==> !Lost(run, s.entries[k].brokerSub.value)
    {
      BoundIsLiveIff(name, run, k, s.entries[k].brokerSub.value);
    }
    if forall k | k in s.entries && s.entries[k].brokerSub.Some? :: Lost(run, s.entries[k].brokerSub.value) {
      NothingOwned(name, s);
    }
  }

  lemma NothingOwned(name: string, s: State)
    requires AllOwned(name, s)
    requires forall k | k in s.entries && s.entries[k].brokerSub.Some? :: s.entries[k].brokerSub.value !in s.live
    ensures s.live == map[]
  {
    forall x
      ensures x !in s.live
    {
    }
    assert s.live.Keys == {};
  }

  // ---- Consumer groups ----

  /** The groups that registrations end up in are distinct per topic. */
  ghost predicate GroupsDistinct(name: string, entries: map<nat, Entry>) {
    forall j, k | j in entries && k in entries && j != k && entries[j].topic == entries[k].topic ::
      EffectiveGroup(name, entries[j].queue) != EffectiveGroup(name, entries[k].queue)
  }

  /** Some topic is registered both without a queue and with the service name as its explicit queue. */
  ghost predicate NameUsedAsQueue(name: string, entries: map<nat, Entry>) {
    exists j, k :: j in entries && k in entries && entries[j].topic == entries[k].topic
                   && entries[j].queue == "" && entries[k].queue == name
  }

  /** Distinct registrations share a consumer group if and only if some topic is registered both without a
      queue and with the service name as its explicit queue. */
  lemma GroupsDistinctIff(name: string, run: seq<Event>, s: State)
    requires After(name, INIT, run) == Some(s) && name != ""
    ensures GroupsDistinct(name, s.entries) <==> !NameUsedAsQueue(name, s.entries)
  {
    RunKeepsInv(name, run);
    if NameUsedAsQueue(name, s.entries) {
      var j, k :| j in s.entries && k in s.entries && s.entries[j].topic == s.entries[k].topic
                  && s.entries[j].queue == "" && s.entries[k].queue == name;
      assert j != k && EffectiveGroup(name, s.entries[j].queue) == EffectiveGroup(name, s.entries[k].queue);
    }
  }

  // ---- Runs in which the conditions fail ----

  /** Two subscribers are registered, and the first is subscribed before `Start` fails on the second. */
  const HALF_STARTED: seq<Event> :=
    [Register("a", "", true), Register("b", "", true), StartConnects, Bind(0), StartFails]

  const A: Entry := Entry("a", "", true, Some(0))
  const B: Entry := Entry("b", "", true, None)

  function HalfStarted(name: string): State {
    State(map[0 := A, 1 := B], 2, false, Resting, true, map[0 := Live("a", name, true)], 1)
  }

  lemma StepTo(name: string, run: seq<Event>, s: State, e: Event, t: State)
    requires After(name, INIT, run) == Some(s) && Enabled(s, e) && Next(name, s, e) == t
    ensures After(name, INIT, run + [e]) == Some(t)
  {
    RunAppends(name, INIT, run, e);
  }

  lemma BothRegistered(name: string)
    ensures After(name, INIT, HALF_STARTED[..2])
         == Some(State(map[0 := A.(brokerSub := None), 1 := B], 2, false, Resting, false, map[], 0))
  {
    var one := State(map[0 := A.(brokerSub := None)], 1, false, Resting, false, map[], 0);
    StepTo(name, [], INIT, HALF_STARTED[0], one);
    assert [] + [HALF_STARTED[0]] == HALF_STARTED[..1];
    StepTo(name, HALF_STARTED[..1], one, HALF_STARTED[1], Next(name, one, HALF_STARTED[1]));
    assert HALF_STARTED[..1] + [HALF_STARTED[1]] == HALF_STARTED[..2];
  }

  lemma HalfStartedReached(name: string)
    ensures After(name, INIT, HALF_STARTED) == Some(HalfStarted(name))
  {
    BothRegistered(name);
    var two := After(name, INIT, HALF_STARTED[..2]).value;
    var three := two.(phase := Starting, connected := true);
    var four := HalfStarted(name).(phase := Starting);
    StepTo(name, HALF_STARTED[..2], two, StartConnects, three);
    assert HALF_STARTED[..2] + [StartConnects] == HALF_STARTED[..3];
    StepTo(name, HALF_STARTED[..3], three, Bind(0), four);
    assert HALF_STARTED[..3] + [Bind(0)] == HALF_STARTED[..4];
    StepTo(name, HALF_STARTED[..4], four, StartFails, HalfStarted(name));
    assert HALF_STARTED[..4] + [StartFails] == HALF_STARTED;
  }

  /** `Stop` of a half-started consumer does nothing: the first subscription stays live. */
  lemma StopLeavesHalfStarted(name: string)
    ensures After(name, INIT, HALF_STARTED + [StopSkips]) == Some(HalfStarted(name))
    ensures 0 in HalfStarted(name).live
  {
    HalfStartedReached(name);
    StepTo(name, HALF_STARTED, HalfStarted(name), StopSkips, HalfStarted(name));
  }

  /** A second `Start`, after `loss`, passes over the entry that is bound already and subscribes the other. */
  function StartedAgain(loss: Event): seq<Event> {
    HALF_STARTED + [loss] + [StartConnects] + [Bind(1)] + [StartEnds]
  }

  /** If between the two calls of `Start` the context of the first subscription is cancelled,
      or anybody disconnects the broker, the second `Start` succeeds and leaves the first entry without a
      live subscription. */
  lemma StartPassesOverLost(name: string, loss: Event)
    requires loss == Ends(0) || loss == Disconnects
    ensures After(name, INIT, StartedAgain(loss)).Some?
    ensures var s := After(name, INIT, StartedAgain(loss)).value;
      && s.started && s.entries.Keys == {0, 1} && AllBound(s.entries)
      && s.entries[0].brokerSub == Some(0) && 0 !in s.live && 1 in s.live
  {
    HalfStartedReached(name);
    var five := HalfStarted(name);
    var six := five.(live := map[], connected := loss == Ends(0));
    var seven := six.(phase := Starting, connected := true);
    var eight := Next(name, seven, Bind(1));
    StepTo(name, HALF_STARTED, five, loss, six);
    StepTo(name, HALF_STARTED + [loss], six, StartConnects, seven);
    StepTo(name, HALF_STARTED + [loss] + [StartConnects], seven, Bind(1), eight);
    StepTo(name, HALF_STARTED + [loss] + [StartConnects] + [Bind(1)], eight, StartEnds, Next(name, eight, StartEnds));
  }

  /** A subscriber is registered with a consumer that is started. */
  const LATE: seq<Event> := [Register("a", "", true), StartConnects, Bind(0), StartEnds, Register("b", "", true)]

  function Late(name: string): State {
    State(map[0 := A, 1 := B], 2, true, Resting, true, map[0 := Live("a", name, true)], 1)
  }

  lemma LateReached(name: string)
    ensures After(name, INIT, LATE) == Some(Late(name))
  {
    var one := State(map[0 := A.(brokerSub := None)], 1, false, Resting, false, map[], 0);
    var two := one.(phase := Starting, connected := true);
    var three := two.(entries := map[0 := A], live := map[0 := Live("a", name, true)], made := 1);
    var four := three.(phase := Resting, started := true);
    StepTo(name, [], INIT, LATE[0], one);
    assert [] + [LATE[0]] == LATE[..1];
    StepTo(name, LATE[..1], one, LATE[1], two);
    assert LATE[..1] + [LATE[1]] == LATE[..2];
    StepTo(name, LATE[..2], two, LATE[2], three);
    assert LATE[..2] + [LATE[2]] == LATE[..3];
    StepTo(name, LATE[..3], three, LATE[3], four);
    assert LATE[..3] + [LATE[3]] == LATE[..4];
    StepTo(name, LATE[..4], four, LATE[4], Late(name));
    assert LATE[..4] + [LATE[4]] == LATE;
  }

  lemma LateIsUnbound(name: string)
    ensures !AllBound(Late(name).entries) && Late(name).entries[1].brokerSub.None?
    ensures forall k | k in Late(name).entries && Late(name).entries[k].brokerSub.Some? :: k == 0
  {
    assert 1 in Late(name).entries && Late(name).entries[1] == B;
  }

  /** A second `Start` then returns nil at once, nothing has been lost, and the late entry has no
      subscription. */
  lemma StartSkipsLate(name: string)
    ensures After(name, INIT, LATE + [StartSkips]) == Some(Late(name))
    ensures NoneLost(LATE + [StartSkips], Late(name)) && !AllLive(name, Late(name))
    ensures Late(name).entries[1].brokerSub.None?
  {
    LateReached(name);
    StepTo(name, LATE, Late(name), StartSkips, Late(name));
    LateIsUnbound(name);
    AllLiveIff(name, LATE + [StartSkips], Late(name));
    BoundIsLiveIff(name, LATE + [StartSkips], 0, 0);
  }

  /** `Subscribe` accepts a topic without a queue and the same topic with the service name as its queue: the
      two registrations share one consumer group. */
  lemma SharedGroup(name: string)
    requires name != ""
    ensures var run := [Register("t", "", true), Register("t", name, true)];
      && After(name, INIT, run).Some?
      && var entries := After(name, INIT, run).value.entries;
      && entries.Keys == {0, 1} && EffectiveGroup(name, entries[0].queue) == EffectiveGroup(name, entries[1].queue)
  {
    var first, second := Register("t", "", true), Register("t", name, true);
    StepTo(name, [], INIT, first, Next(name, INIT, first));
    var one := Next(name, INIT, first);
    StepTo(name, [] + [first], one, second, Next(name, one, second));
    assert [] + [first] + [second] == [first, second];
  }
}
