/** From publisher to handler: the header map built in `publisher/default_publisher.go`, the handler
    made in `consumer/subscriber.go`, and the metadata between the two ends. */
module EndToEnd {
  import opened Prelude
  import Wire
  import Retry
  import Delivery
  import Fidelity
  import ConsumeLoop

  /** What `Payload()` holds: bytes, a string, or a value with the codec's rendering of it. */
  datatype Payload = Raw(bytes: Bytes) | Text(text: string) | Value(marshalled: Option<Bytes>)

  function Body(p: Payload): Option<Bytes> {
    match p
    case Raw(bytes) => Some(bytes)
    case Text(text) => Some(text)
    case Value(marshalled) => marshalled
  }

  /** The publisher's metadata with the content type set. */
  function OutgoingHeader(md: Option<map<string, string>>, contentType: string, codec: string): map<string, string> {
    (if md.Some? then md.value else map[])["Content-Type" := if contentType == "" then codec else contentType]
  }

  /** Apart from the content type, a header map holds exactly what the metadata does, or nothing without it. */
  ghost predicate Carries(header: map<string, string>, md: Option<map<string, string>>) {
    forall k | k != "Content-Type" ::
      && (k in header <==> md.Some? && k in md.value)
      && (md.Some? && k in md.value ==> k in header && header[k] == md.value[k])
  }

  /** The message that `Publish` hands to the broker for a payload with the given body. */
  function Outgoing(md: Option<map<string, string>>, contentType: string, codec: string, body: Bytes): Message {
    Message(OutgoingHeader(md, contentType, codec), body)
  }

  /** That message as `Publish` builds it, or nothing when the codec fails. The metadata map is copied,
      not shared. */
  method BuildMessage(md: Option<map<string, string>>, payload: Payload, contentType: string, codec: string)
    returns (msg: Option<Message>)
    ensures msg.Some? <==> Body(payload).Some?
    ensures msg.Some? ==> msg.value == Outgoing(md, contentType, codec, Body(payload).value)
    ensures msg.None? <==> payload == Value(None)
    ensures match payload
            case Raw(bytes) => msg.Some? && msg.value.body == bytes
            case Text(text) => msg.Some? && msg.value.body == text
            case Value(marshalled) => marshalled.Some? ==> msg.Some? && msg.value.body == marshalled.value
    ensures msg.Some? ==> Carries(msg.value.header, md) && "Content-Type" in msg.value.header
    ensures msg.Some? && contentType != "" ==> msg.value.header["Content-Type"] == contentType
    ensures msg.Some? && contentType == "" ==> msg.value.header["Content-Type"] == codec
  {
    var headers: map<string, string> := map[];
    if md.Some? {
      headers := Retry.CopyHeaders(md.value);
    }
    var ct := contentType;
    if ct == "" {
      ct := codec;
    }
    headers := headers["Content-Type" := ct];
    match payload
    case Raw(bytes) => return Some(Message(headers, bytes));
    case Text(text) => return Some(Message(headers, text));
    case Value(marshalled) =>
      if marshalled.None? {
        return None;
      }
      return Some(Message(headers, marshalled.value));
  }

  /** What becomes of a command: it may be carried out although its reply is lost. */
  datatype Reply = Stored | ReplyLost | NotStored

  /** The Redis broker's `Publish`: refused unless connected, else one XADD of the encoded fields, of which `reply`
      tells what became of it. It returns no error exactly when the broker was connected and the server
      answered that the entry is stored. */
  method RedisPublish(w: ConsumeLoop.World, msg: Message, reply: Reply)
    returns (err: bool, ghost before: seq<Delivery.Action>, ghost entry: Wire.Entry)
    requires w.Valid()
    modifies w
    ensures w.Valid()
    ensures err <==> !old(w.s.connected) || reply != Stored
    ensures !old(w.s.connected) ==> w.run == old(w.run)
    ensures old(w.run) <= before
    ensures old(w.s.connected) && reply != NotStored ==> w.run == before + [Delivery.Publish(entry, msg)]
    ensures reply == NotStored ==> w.run == before
    ensures exists env :: before == old(w.run) + env && ConsumeLoop.AllFromOutside(env, w.l)
  {
    err, before, entry := true, w.run, [];
    if !w.s.connected {
      assert w.run == old(w.run) + [];
      return;
    }
    var fields := Wire.Encode(msg);
    ghost var env := w.Interfere();
    before := w.run;
    if reply == NotStored {
      return;
    }
    var sent := Wire.Send(fields);
    entry := sent;
    w.Do(Delivery.Publish(sent, msg));
    err := reply == ReplyLost;
  }

  /** The publisher's `Publish`: no error is returned exactly when the payload can be encoded, the broker was
      connected and has stored, as the last step of the run, the message built from the caller's metadata
      and payload. */
  method PublishMessage(w: ConsumeLoop.World, md: Option<map<string, string>>, payload: Payload, contentType: string,
                        codec: string, reply: Reply)
    returns (err: bool, ghost before: seq<Delivery.Action>, ghost entry: Wire.Entry)
    requires w.Valid()
    modifies w
    ensures w.Valid() && old(w.run) <= w.run
    ensures err <==> payload == Value(None) || !old(w.s.connected) || reply != Stored
    ensures payload == Value(None) || !old(w.s.connected) ==> w.run == old(w.run)
    ensures !err ==>
              && old(w.run) <= before
              && w.run == before + [Delivery.Publish(entry, Outgoing(md, contentType, codec, Body(payload).value))]
  {
    err, before, entry := true, w.run, [];
    var msg := BuildMessage(md, payload, contentType, codec);
    if msg.None? {
      return;
    }
    err, before, entry := RedisPublish(w, msg.value, reply);
  }

  // ---- The receiving end ----

  /** What the user handler is called with: the metadata of its context, and its message. */
  datatype Arguments = Arguments(metadata: map<string, string>, msg: Retry.Incoming)

  datatype UserOutcome = Ok | Failed(reason: string) | Panicked(value: string)

  /** One call of the user handler, with the consumer's in-flight count at that moment. */
  datatype Call = Call(inFlight: int, arguments: Arguments, outcome: UserOutcome)

  class UserHandler {
    ghost var calls: seq<Call>

    method Handle(ghost inFlight: int, metadata: map<string, string>, msg: Retry.Incoming)
      returns (outcome: UserOutcome)
      modifies this
      ensures calls == old(calls) + [Call(inFlight, Arguments(metadata, msg), outcome)]
    {
      outcome := *;
      calls := calls + [Call(inFlight, Arguments(metadata, msg), outcome)];
    }
  }

  /** The consumer's wait group of running handlers. */
  class WaitGroup {
    var count: int

    method Add(d: int)
      modifies this
      ensures count == old(count) + d
    {
      count := count + d;
    }
  }

  /** What a broker event holds; a message that could not be decoded is nil. */
  datatype Event = Event(topic: string, message: Option<(Option<map<string, string>>, Bytes)>)

  const NIL_POINTER: string := "runtime error: invalid memory address or nil pointer dereference"

  /** The broker handler of `createSubHandler`: the count goes up and comes down on every way out, the
      user handler is called once, and its result is returned, a panic as an error. A nil message
      panics before that call. */
  method HandleEvent(wg: WaitGroup, user: UserHandler, name: string, event: Event) returns (err: Option<string>)
    modifies wg, user
    ensures wg.count == old(wg.count)
    ensures event.message.None? ==>
              && user.calls == old(user.calls)
              && err == Some(name + ": panic recovered: "
                             + "runtime error: invalid memory address or nil pointer dereference")
    ensures event.message.Some? ==>
              |user.calls| == |old(user.calls)| + 1 && old(user.calls) <= user.calls
              && var call := user.calls[|old(user.calls)|];
                 && call.inFlight == old(wg.count) + 1
                 && call.arguments.msg.topic == event.topic
                 && call.arguments.msg.message.header == call.arguments.metadata
                 && call.arguments.msg.message.body == event.message.value.1
                 && (event.message.value.0.None? ==> call.arguments.metadata == map[])
                 && (event.message.value.0.Some? ==> call.arguments.metadata == event.message.value.0.value)
                 && (err.None? <==> call.outcome.Ok?)
                 && (call.outcome.Failed? ==> err == Some(call.outcome.reason))
                 && (call.outcome.Panicked? ==> err == Some(name + ": panic recovered: " + call.outcome.value))
  {
    wg.Add(1);
    var panic: Option<string> := None;
    err := None;
    if event.message.None? {
      panic := Some(NIL_POINTER);
    } else {
      var (header, body) := event.message.value;
      var h := if header.None? then map[] else header.value;
      var outcome := user.Handle(wg.count, h, Retry.Incoming(event.topic, Message(h, body)));
      match outcome {
        case Ok =>
        case Failed(reason) => err := Some(reason);
        case Panicked(value) => panic := Some(value);
      }
    }
    if panic.Some? {
      err := Some(name + ": panic recovered: " + panic.value);
    }
    wg.Add(-1);
  }

  // ---- Both ends ----

  lemma PublishAppends(cfg: Delivery.Config, before: seq<Delivery.Action>, entry: Wire.Entry, msg: Message)
    requires Delivery.After(cfg, Delivery.INIT, before + [Delivery.Publish(entry, msg)]).Some?
    ensures Delivery.After(cfg, Delivery.INIT, before).Some?
    ensures Delivery.After(cfg, Delivery.INIT, before + [Delivery.Publish(entry, msg)]).value.published
         == Delivery.After(cfg, Delivery.INIT, before).value.published + [msg]
  {
    assert (before + [Delivery.Publish(entry, msg)])[..|before|] == before;
  }

  /** A run that begins with `first`. */
  lemma {:induction false} BeginsRun(cfg: Delivery.Config, s: Delivery.State, first: seq<Delivery.Action>,
                                     rest: seq<Delivery.Action>)
    requires Delivery.After(cfg, s, first + rest).Some?
    ensures Delivery.After(cfg, s, first).Some?
    ensures Delivery.After(cfg, Delivery.After(cfg, s, first).value, rest) == Delivery.After(cfg, s, first + rest)
    decreases |rest|
  {
    if rest == [] {
      assert first + rest == first;
    } else {
      assert (first + rest)[..|first + rest| - 1] == first + rest[..|rest| - 1];
      BeginsRun(cfg, s, first, rest[..|rest| - 1]);
      Delivery.RunsConcat(cfg, s, first, rest);
    }
  }

  function Publishes(run: seq<Delivery.Action>): nat {
    if run == [] then 0 else Publishes(run[..|run| - 1]) + (if run[|run| - 1].Publish? then 1 else 0)
  }

  lemma StepPublishes(cfg: Delivery.Config, s: Delivery.State, a: Delivery.Action)
    requires Delivery.Enabled(cfg, s, a)
    ensures |Delivery.Next(cfg, s, a).published| == |s.published| + (if a.Publish? then 1 else 0)
  {
  }

  lemma {:induction false} PublishesCount(cfg: Delivery.Config, run: seq<Delivery.Action>)
    requires Delivery.After(cfg, Delivery.INIT, run).Some?
    ensures |Delivery.After(cfg, Delivery.INIT, run).value.published| == Publishes(run)
    decreases |run|
  {
    if run == [] {
    } else {
      var n := |run| - 1;
      PublishesCount(cfg, run[..n]);
      StepPublishes(cfg, Delivery.After(cfg, Delivery.INIT, run[..n]).value, run[n]);
    }
  }

  /** The message stored by a publish keeps its id and its contents. */
  lemma StaysPublished(cfg: Delivery.Config, before: seq<Delivery.Action>, entry: Wire.Entry, msg: Message,
                       after: seq<Delivery.Action>, s: Delivery.State)
    requires Delivery.After(cfg, Delivery.INIT, before + [Delivery.Publish(entry, msg)] + after) == Some(s)
    ensures Publishes(before) < |s.published| && s.published[Publishes(before)] == msg
  {
    var first := before + [Delivery.Publish(entry, msg)];
    BeginsRun(cfg, Delivery.INIT, first, after);
    PublishAppends(cfg, before, entry, msg);
    PublishesCount(cfg, before);
    Fidelity.RunGrowsPublished(cfg, Delivery.After(cfg, Delivery.INIT, first).value, after);
  }

  lemma HandledAsPublished(cfg: Delivery.Config, before: seq<Delivery.Action>, entry: Wire.Entry, msg: Message,
                           after: seq<Delivery.Action>, s: Delivery.State, l: nat)
    requires Delivery.After(cfg, Delivery.INIT, before + [Delivery.Publish(entry, msg)] + after) == Some(s)
    requires l in s.loops && s.loops[l].pc.Handling?
    requires Delivery.IdAt(s.loops[l], s.loops[l].pc.i) == Publishes(before) + 1
    ensures Delivery.Incoming(cfg, s, s.loops[l], s.loops[l].pc.i) == Retry.Incoming(cfg.topic, msg)
  {
    var run := before + [Delivery.Publish(entry, msg)] + after;
    StaysPublished(cfg, before, entry, msg, after, s);
    Fidelity.HandlerSeesPublished(cfg, run, s, l, Publishes(before) + 1);
  }

  /** Main result. Whoever handles a published message, first or after any number of reclaims, is called
      with exactly the publisher's metadata, the content type set, as its context's metadata, and with the
      body that was published. The run is any that `PublishMessage` can leave behind, continued by
      anybody in any way. */
  lemma MetadataEndToEnd(cfg: Delivery.Config, before: seq<Delivery.Action>, entry: Wire.Entry,
                         md: Option<map<string, string>>, contentType: string, codec: string, body: Bytes,
                         after: seq<Delivery.Action>, s: Delivery.State, l: nat)
    requires var publish := Delivery.Publish(entry, Outgoing(md, contentType, codec, body));
             Delivery.After(cfg, Delivery.INIT, before + [publish] + after) == Some(s)
    requires l in s.loops && s.loops[l].pc.Handling?
    requires Delivery.IdAt(s.loops[l], s.loops[l].pc.i) == Publishes(before) + 1
    ensures var m := Delivery.Incoming(cfg, s, s.loops[l], s.loops[l].pc.i);
            && m.topic == cfg.topic && m.message.body == body && Carries(m.message.header, md)
            && "Content-Type" in m.message.header
            && m.message.header["Content-Type"] == if contentType == "" then codec else contentType
  {
    HandledAsPublished(cfg, before, entry, Outgoing(md, contentType, codec, body), after, s, l);
  }
}
