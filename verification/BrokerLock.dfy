/** The Redis broker's lock-guarded fields and the code of its lock sections
    (`broker/redis/redis.go`); `Lifecycle` is about what these sections do together. */
module BrokerLock {
  import opened Prelude
  import Lifecycle

  class RedisBroker {
    var connected: bool
    var disconnectDone: Option<nat>
    var subscribers: seq<nat>
    var closed: set<nat>
    const claimMinIdle: int
    const claimInterval: int
    const batchCount: int

    function View(): Lifecycle.Broker
      reads this
    {
      Lifecycle.Broker(connected, disconnectDone, subscribers)
    }

    constructor (claimMinIdle: int, claimInterval: int, batchCount: int)
      ensures View() == Lifecycle.INIT.broker && closed == {}
      ensures !connected && disconnectDone == None && subscribers == []
      ensures this.claimMinIdle == claimMinIdle && this.claimInterval == claimInterval && this.batchCount == batchCount
    {
      connected, disconnectDone, subscribers, closed := false, None, [], {};
      this.claimMinIdle, this.claimInterval, this.batchCount := claimMinIdle, claimInterval, batchCount;
    }

    /** `Connect` under the lock. A drain in progress is waited for outside of it; the options must be
        positive and the server must answer. */
    method Connect(ping: bool) returns (result: Lifecycle.ConnectResult)
      modifies this`connected
      ensures (View(), result)
           == Lifecycle.ConnectSection(old(View()), claimMinIdle > 0 && claimInterval > 0 && batchCount > 0 && ping)
      ensures disconnectDone.Some? ==>
                result == Lifecycle.ConnectWaits(disconnectDone.value) && connected == old(connected)
      ensures disconnectDone.None? ==>
                && result == (if connected then Lifecycle.Connected else Lifecycle.Refused)
                && (connected <==>
                      old(connected) || (claimMinIdle > 0 && claimInterval > 0 && batchCount > 0 && ping))
    {
      if disconnectDone.Some? {
        return Lifecycle.ConnectWaits(disconnectDone.value);
      }
      if connected {
        return Lifecycle.Connected;
      }
      if claimMinIdle <= 0 || claimInterval <= 0 || batchCount <= 0 {
        return Lifecycle.Refused;
      }
      if !ping {
        return Lifecycle.Refused;
      }
      connected := true;
      return Lifecycle.Connected;
    }

    /** The first half of `Disconnect`, up to the release of the lock. */
    method BeginDisconnect(channel: nat) returns (result: Lifecycle.DisconnectResult)
      modifies this`connected, this`disconnectDone, this`subscribers
      ensures (View(), result) == Lifecycle.DisconnectSection(old(View()), channel)
      ensures result.Drains? <==> old(disconnectDone).None? && old(connected)
      ensures result.Drains? ==>
                && result.captured == old(subscribers) && disconnectDone == Some(channel)
                && !connected && subscribers == []
      ensures !result.Drains? ==>
                && result == (if disconnectDone.Some? then Lifecycle.DisconnectWaits(disconnectDone.value)
                              else Lifecycle.NotConnected)
                && connected == old(connected) && disconnectDone == old(disconnectDone)
                && subscribers == old(subscribers)
    {
      if disconnectDone.Some? {
        return Lifecycle.DisconnectWaits(disconnectDone.value);
      }
      if !connected {
        return Lifecycle.NotConnected;
      }
      connected := false;
      disconnectDone := Some(channel);
      var subs := subscribers;
      subscribers := [];
      return Lifecycle.Drains(subs);
    }

    /** The second half, once every captured loop has ended. Closing a nil or closed channel panics, so
        the field must name an open one: `DrainSafety.DrainOk` says that it does. */
    method EndDisconnect()
      requires disconnectDone.Some? && disconnectDone.value !in closed
      modifies this`disconnectDone, this`closed
      ensures View() == Lifecycle.FinishSection(old(View()))
      ensures closed == old(closed) + {old(disconnectDone.value)} && disconnectDone == None
      ensures connected == old(connected) && subscribers == old(subscribers)
    {
      closed := closed + {disconnectDone.value};
      disconnectDone := None;
    }

    /** `Subscribe`, whose registration is atomic with respect to `Disconnect`. */
    method Subscribe(x: nat, groupCreated: bool) returns (ok: bool)
      modifies this`subscribers
      ensures ok == (connected && groupCreated)
      ensures View() == if ok then Lifecycle.SubscribeSection(old(View()), x) else old(View())
      ensures subscribers == if ok then old(subscribers) + [x] else old(subscribers)
    {
      if !connected {
        return false;
      }
      if !groupCreated {
        return false;
      }
      subscribers := subscribers + [x];
      return true;
    }
  }

  /** A subscriber's shutdown state. Closing `exit` a second time would panic. */
  class RedisSubscriber {
    var once: bool
    var exitClosed: bool
    var cancelled: bool

    ghost predicate Valid()
      reads this
    {
      (once <==> exitClosed) && (once ==> cancelled)
    }

    constructor ()
      ensures Valid() && !once && !cancelled
    {
      once, exitClosed, cancelled := false, false, false;
    }

    method CloseExit()
      requires !exitClosed
      modifies this`exitClosed
      ensures exitClosed
    {
      exitClosed := true;
    }

    /** `stop`, callable any number of times by `Unsubscribe` and `Disconnect`. */
    method Stop()
      requires Valid()
      modifies this
      ensures Valid() && once && exitClosed && cancelled
    {
      if !once {
        once := true;
        CloseExit();
        cancelled := true;
      }
    }
  }
}
