/** Registration, `Start` and `Stop` of the consumer (`consumer/default_consumer.go`) as code, between
    arbitrary interference with the broker it shares: whatever they do is a run of `Registration`. */
module Consumer {
  import opened Prelude
  import opened Registration

  /** What can happen at any time without the consumer. */
  predicate IsOutside(e: Event) {
    e.Ends? || e.Disconnects? || e.Connects?
  }

  predicate AllOutside(events: seq<Event>) {
    forall i | 0 <= i < |events| :: IsOutside(events[i])
  }

  predicate SameRegistrations(a: map<nat, Entry>, b: map<nat, Entry>) {
    a.Keys == b.Keys && forall k | k in a :: SameEntry(a[k], b[k])
  }

  predicate SameEntry(a: Entry, b: Entry) {
    a.(brokerSub := None) == b.(brokerSub := None)
  }

  /** The broker as the consumer uses it. Its calls may fail; `live` are the consumer's subscriptions whose
      loops run on. */
  class Broker {
    var connected: bool
    var live: map<nat, Live>
    var made: nat

    constructor ()
      ensures live == map[] && !connected && made == 0
    {
      connected, live, made := false, map[], 0;
    }

    method Connect() returns (ok: bool)
      modifies this`connected
      ensures ok ==> connected
      ensures !ok ==> connected == old(connected)
    {
      var answers: bool := *;
      ok := connected || answers;
      connected := ok;
    }

    /** The parent context may be cancelled already, and the server may fail. */
    method Subscribe(topic: string, group: string, autoAck: bool) returns (r: Option<nat>)
      modifies this`live, this`made
      ensures r.None? ==> live == old(live) && made == old(made)
      ensures r.Some? ==> connected && r.value == old(made) && made == old(made) + 1
                          && live == old(live)[r.value := Live(topic, group, autoAck)]
    {
      var created: bool := *;
      if !connected || !created {
        return None;
      }
      live := live[made := Live(topic, group, autoAck)];
      made := made + 1;
      return Some(made - 1);
    }

    /** `Unsubscribe` returns once the subscription's loop has ended. */
    method Unsubscribe(x: nat)
      modifies this`live
      ensures live == old(live) - {x}
    {
      live := live - {x};
    }

    /** `Disconnect` ends every loop that is left. */
    method Disconnect()
      modifies this`connected, this`live
      ensures !connected && live == map[]
    {
      connected, live := false, map[];
    }
  }

  class DefaultConsumer {
    const name: string
    const broker: Broker
    var subscribers: map<nat, Entry>
    var registered: nat
    var started: bool
    ghost var phase: Phase
    ghost var run: seq<Event>

    ghost function View(): State
      reads this, broker
    {
      State(subscribers, registered, started, phase, broker.connected, broker.live, broker.made)
    }

    /** The consumer's history leads to where it and the broker are. */
    ghost predicate Valid()
      reads this, broker
    {
      After(name, INIT, run) == Some(View())
    }

    constructor (name: string, broker: Broker)
      requires broker.live == map[] && broker.made == 0 && !broker.connected
      ensures Valid() && phase == Resting && run == [] && this.broker == broker && this.name == name
    {
      this.name, this.broker, subscribers, registered, started := name, broker, map[], 0, false;
      phase, run := Resting, [];
      new;
      assert View() == INIT;
    }

    /** Any number of outside events: contexts cancelled, the shared broker disconnected or connected by
        others. The body stands for the choice. */
    method Interfere() returns (ghost env: seq<Event>)
      requires Valid()
      modifies this`run, broker
      ensures Valid() && AllOutside(env) && run == old(run) + env
    {
      env := [];
      assert run == run + env;
    }

    /** `Subscribe` refuses a second registration of the same topic and queue. */
    method Subscribe(topic: string, queue: string, autoAck: bool) returns (err: bool)
      requires Valid() && phase == Resting
      modifies this`subscribers, this`registered, this`run
      ensures Valid() && err == Taken(old(subscribers), topic, queue)
      ensures err <==> exists k :: k in old(subscribers)
                                   && old(subscribers)[k].topic == topic && old(subscribers)[k].queue == queue
      ensures err ==> run == old(run) && subscribers == old(subscribers)
      ensures !err ==> run == old(run) + [Register(topic, queue, autoAck)]
                       && subscribers == old(subscribers)[old(registered) := Entry(topic, queue, autoAck, None)]
    {
      var rest := subscribers.Keys;
      while rest != {}
        invariant rest <= subscribers.Keys
        invariant forall k | k in subscribers && k !in rest ::
                    subscribers[k].topic != topic || subscribers[k].queue != queue
        decreases rest
      {
        var existing :| existing in rest;
        if subscribers[existing].topic == topic && subscribers[existing].queue == queue {
          return true;
        }
        rest := rest - {existing};
      }
      RunAppends(name, INIT, run, Register(topic, queue, autoAck));
      subscribers := subscribers[registered := Entry(topic, queue, autoAck, None)];
      registered := registered + 1;
      run := run + [Register(topic, queue, autoAck)];
      return false;
    }

    /** One iteration of `Start`. */
    method SubscribeOne(sub: nat) returns (failed: bool, ghost during: seq<Event>)
      requires Valid() && phase == Starting && sub in subscribers && subscribers[sub].brokerSub.None?
      modifies this`subscribers, this`run, broker
      ensures Valid() && run == old(run) + during && SameRegistrations(old(subscribers), subscribers)
      ensures forall k | k in old(subscribers) && k != sub :: subscribers[k] == old(subscribers)[k]
      ensures failed ==> AllOutside(during) && subscribers == old(subscribers)
      ensures !failed ==> IsSubscribed(sub)
      ensures !failed ==> during != [] && during[|during| - 1] == Bind(sub) && AllOutside(during[..|during| - 1])
    {
      during := Interfere();
      failed := AskBroker(sub);
      if !failed {
        during := during + [Bind(sub)];
      }
    }

    /** The entry is bound to a live subscription with its topic and acknowledgement mode, in the group that its
        queue names, or the service. */
    ghost predicate IsSubscribed(sub: nat)
      reads this, broker
    {
      && sub in subscribers && subscribers[sub].brokerSub.Some? && subscribers[sub].brokerSub.value in broker.live
      && var x, e := broker.live[subscribers[sub].brokerSub.value], subscribers[sub];
      && x.topic == e.topic && x.autoAck == e.autoAck && (e.queue != "" ==> x.group == e.queue)
      && (e.queue == "" ==> x.group == name)
    }

    /** The call of the broker's `Subscribe`: the explicit queue, or the service name, becomes the group. */
    method AskBroker(sub: nat) returns (failed: bool)
      requires Valid() && phase == Starting && sub in subscribers && subscribers[sub].brokerSub.None?
      modifies this`subscribers, this`run, broker
      ensures Valid() && run == old(run) + if failed then [] else [Bind(sub)]
      ensures SameRegistrations(old(subscribers), subscribers)
      ensures forall k | k in old(subscribers) && k != sub :: subscribers[k] == old(subscribers)[k]
      ensures if failed then subscribers == old(subscribers) else IsSubscribed(sub)
    {
      var e := subscribers[sub];
      var queue := if |e.queue| > 0 then e.queue else name;
      ghost var before := View();
      var brokerSub := broker.Subscribe(e.topic, queue, e.autoAck);
      failed := brokerSub.None?;
      if failed {
        assert View() == before;
      } else {
        RunAppends(name, INIT, run, Bind(sub));
        subscribers := subscribers[sub := e.(brokerSub := brokerSub)];
        run := run + [Bind(sub)];
        assert View() == Next(name, before, Bind(sub));
      }
    }

    /** One iteration of `Stop`. */
    method ReleaseOne(sub: nat)
      requires Valid() && phase == Stopping && sub in subscribers
      modifies this`subscribers, this`run, broker
      ensures Valid() && SameRegistrations(old(subscribers), subscribers) && old(run) <= run
      ensures forall k | k in old(subscribers) && k != sub :: subscribers[k] == old(subscribers)[k]
      ensures subscribers[sub].brokerSub.None?
      ensures old(subscribers[sub].brokerSub.Some?) ==> old(subscribers[sub].brokerSub.value) !in broker.live
    {
      ghost var env := Interfere();
      var e := subscribers[sub];
      ghost var before := View();
      if e.brokerSub.Some? {
        broker.Unsubscribe(e.brokerSub.value);
      }
      RunAppends(name, INIT, run, Release(sub));
      subscribers := subscribers[sub := e.(brokerSub := None)];
      run := run + [Release(sub)];
      assert View() == Next(name, before, Release(sub));
    }

    /** Records a step that changes nothing but the phase or `started`. */
    ghost method Mark(e: Event, before: State)
      requires After(name, INIT, run) == Some(before) && Enabled(before, e) && View() == Next(name, before, e)
      modifies this`run
      ensures Valid() && run == old(run) + [e]
    {
      RunAppends(name, INIT, run, e);
      run := run + [e];
    }

    /** The loop of `Start` over the entries, in any order. */
    method SubscribeAll() returns (failed: bool)
      requires Valid() && phase == Starting
      modifies this`subscribers, this`run, broker
      ensures Valid() && old(run) <= run && SameRegistrations(old(subscribers), subscribers)
      ensures KeepsBound(old(subscribers), subscribers)
      ensures !failed ==> AllBound(subscribers)
    {
      var rest := subscribers.Keys;
      while rest != {}
        invariant Valid() && old(run) <= run && rest <= subscribers.Keys
        invariant SameRegistrations(old(subscribers), subscribers) && KeepsBound(old(subscribers), subscribers)
        invariant forall k | k in subscribers && k !in rest :: subscribers[k].brokerSub.Some?
        decreases rest
      {
        var sub :| sub in rest;
        rest := rest - {sub};
        if subscribers[sub].brokerSub.Some? {
          continue;
        }
        ghost var during: seq<Event>;
        failed, during := SubscribeOne(sub);
        if failed {
          return;
        }
      }
      failed := false;
    }

    /** `Start` of a started consumer does nothing. Otherwise it subscribes whatever is not yet subscribed;
        what is bound already it passes over, live or not. If it fails, what it did subscribe stays bound,
        and a later `Start` goes on from there. If it returns nil, every entry has a live subscription if and
        only if none has been lost since it was made and, where it did nothing, every entry was bound. */
    method Start() returns (err: bool)
      requires Valid() && phase == Resting
      modifies this`subscribers, this`started, this`phase, this`run, broker
      ensures Valid() && phase == Resting && old(run) <= run && SameRegistrations(old(subscribers), subscribers)
      ensures KeepsBound(old(subscribers), subscribers)
      ensures started == !err
      ensures old(started) ==> !err && run == old(run) + [StartSkips] && View() == old(View())
      ensures !err && !old(started) ==> AllBound(subscribers) && run != [] && run[|run| - 1] == StartEnds
      ensures !err ==>
                (AllLive(name, View()) <==> (old(started) ==> AllBound(old(subscribers))) && NoneLost(run, View()))
    {
      if started {
        SkipStart();
        return false;
      }
      err := StartUp();
    }

    /** `Start` of a consumer that is not started. */
    method StartUp() returns (err: bool)
      requires Valid() && phase == Resting && !started
      modifies this`subscribers, this`started, this`phase, this`run, broker
      ensures Valid() && phase == Resting && old(run) <= run && SameRegistrations(old(subscribers), subscribers)
      ensures KeepsBound(old(subscribers), subscribers)
      ensures started == !err
      ensures !err ==> AllBound(subscribers) && run != [] && run[|run| - 1] == StartEnds
      ensures !err ==> (AllLive(name, View()) <==> NoneLost(run, View()))
    {
      var ok := ConnectBroker();
      if !ok {
        return true;
      }
      var failed := SubscribeAll();
      FinishStart(failed);
      return failed;
    }

    method ConnectBroker() returns (ok: bool)
      requires Valid() && phase == Resting && !started
      modifies this`phase, this`run, broker
      ensures Valid() && old(run) <= run && phase == if ok then Starting else Resting
      ensures ok ==> broker.connected
    {
      ghost var env := Interfere();
      ghost var before := View();
      ok := broker.Connect();
      if !ok {
        assert View() == before;
        return;
      }
      phase := Starting;
      Mark(StartConnects, before);
    }

    /** Notes a `Start` that finds the consumer started. */
    ghost method SkipStart()
      requires Valid() && phase == Resting && started
      modifies this`run
      ensures Valid() && run == old(run) + [StartSkips] && View() == old(View())
      ensures AllLive(name, View()) <==> AllBound(subscribers) && NoneLost(run, View())
    {
      Mark(StartSkips, View());
      AllLiveIff(name, run, View());
    }

    /** The end of `Start`, after its loop or out of it. */
    method FinishStart(failed: bool)
      requires Valid() && phase == Starting && !started && (!failed ==> AllBound(subscribers))
      modifies this`started, this`phase, this`run
      ensures Valid() && phase == Resting && started == !failed
      ensures run == old(run) + [if failed then StartFails else StartEnds]
      ensures !failed ==> (AllLive(name, View()) <==> NoneLost(run, View()))
    {
      ghost var before := View();
      phase := Resting;
      if failed {
        Mark(StartFails, before);
      } else {
        started := true;
        Mark(StartEnds, before);
        AllLiveIff(name, run, View());
      }
    }

    /** The loop of `Stop` over the entries. */
    method ReleaseAll()
      requires Valid() && phase == Stopping
      modifies this`subscribers, this`run, broker
      ensures Valid() && old(run) <= run && SameRegistrations(old(subscribers), subscribers)
      ensures NoneBound(subscribers)
    {
      var rest := subscribers.Keys;
      while rest != {}
        invariant Valid() && old(run) <= run && rest <= subscribers.Keys
        invariant SameRegistrations(old(subscribers), subscribers)
        invariant forall k | k in subscribers && k !in rest :: subscribers[k].brokerSub.None?
        decreases rest
      {
        var sub :| sub in rest;
        rest := rest - {sub};
        ReleaseOne(sub);
      }
    }

    /** `Stop` of a started consumer ends every subscription and then disconnects. Of one that is not
        started, which includes one whose last `Start` failed half-way, it does nothing; then
        subscriptions stay live unless they had been lost. */
    method Stop()
      requires Valid() && phase == Resting
      modifies this`subscribers, this`started, this`phase, this`run, broker
      ensures Valid() && phase == Resting && !started && SameRegistrations(old(subscribers), subscribers)
      ensures if old(started) then NoneBound(subscribers) && !broker.connected && broker.live == map[]
              else View() == old(View()) && run == old(run) + [StopSkips]
      ensures broker.live == map[] <==> old(started) || NothingKept(old(run), old(subscribers))
    {
      ghost var before := View();
      if !started {
        SkippedStop(name, run, before);
        Mark(StopSkips, before);
        return;
      }
      phase := Stopping;
      Mark(StopBegins, before);
      ReleaseAll();
      ghost var env := Interfere();
      before := View();
      started := false;
      broker.Disconnect();
      phase := Resting;
      Mark(StopEnds, before);
    }
  }

  /** Entries that were bound stay bound to the same subscription. */
  predicate KeepsBound(before: map<nat, Entry>, after: map<nat, Entry>) {
    forall k | k in before && before[k].brokerSub.Some? :: k in after && after[k] == before[k]
  }

  /** All that entries are bound to has been lost. */
  predicate NothingKept(run: seq<Event>, entries: map<nat, Entry>) {
    forall k | k in entries && entries[k].brokerSub.Some? :: Lost(run, entries[k].brokerSub.value)
  }
}
