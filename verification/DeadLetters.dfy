/** What the dead-letter topic holds, in every run of the delivery protocol. */
module DeadLetters {
  import opened Prelude
  import opened Streams
  import Retry
  import opened Delivery
  import Fidelity

  /** `d` is a dead-letter copy of the message published under its id. */
  ghost predicate IsCopy(cfg: Config, s: State, d: DeadLetter) {
    && 1 <= d.id <= |s.published|
    && "X-Last-Error" in d.letter.header
    && d.letter == Retry.DeadLetter(Retry.Incoming(cfg.topic, s.published[d.id - 1]), d.letter.header["X-Last-Error"])
  }

  ghost predicate Inv(cfg: Config, s: State) {
    forall k | 0 <= k < |s.dlq| :: IsCopy(cfg, s, s.dlq[k])
  }

  lemma PublishedGrows(cfg: Config, s: State, a: Action)
    requires Enabled(cfg, s, a)
    ensures s.published <= Next(cfg, s, a).published
    ensures !a.HandlerEvent? ==> Next(cfg, s, a).dlq == s.dlq
  {
  }

  lemma CopyStays(cfg: Config, s: State, t: State, d: DeadLetter)
    requires IsCopy(cfg, s, d) && s.published <= t.published
    ensures IsCopy(cfg, t, d)
  {
    assert t.published[d.id - 1] == s.published[d.id - 1];
  }

  /** The middleware publishes nothing but dead-letter copies. */
  lemma PublishedLetter(o: Retry.Options, m: Retry.Incoming, pc: Retry.Pc, ev: Retry.Event)
    requires ev.DlqPublish? && Retry.Step(o, m, pc, ev).Some?
    ensures "X-Last-Error" in ev.letter.header && ev.letter == Retry.DeadLetter(m, ev.letter.header["X-Last-Error"])
  {
  }

  lemma StoredAppends(cfg: Config, s: State, a: Action)
    requires a.HandlerEvent? && a.stored && Enabled(cfg, s, a)
    ensures var id := IdAt(s.loops[a.l], s.loops[a.l].pc.i);
      && Next(cfg, s, a).dlq == s.dlq + [DeadLetter(id, a.ev.letter)]
      && Next(cfg, s, a).published == s.published
  {
  }

  lemma LetterIsCopy(cfg: Config, s: State, id: nat, m: Retry.Incoming, letter: Message)
    requires 1 <= id <= |s.published| && m == Retry.Incoming(cfg.topic, s.published[id - 1])
    requires "X-Last-Error" in letter.header && letter == Retry.DeadLetter(m, letter.header["X-Last-Error"])
    ensures IsCopy(cfg, s, DeadLetter(id, letter))
  {
  }

  lemma SentIsCopy(cfg: Config, s: State, id: nat, m: Retry.Incoming, o: Retry.Options, pc: Retry.Pc, ev: Retry.Event)
    requires 1 <= id <= |s.published| && m == Retry.Incoming(cfg.topic, s.published[id - 1])
    requires ev.DlqPublish? && Retry.Step(o, m, pc, ev).Some?
    ensures IsCopy(cfg, s, DeadLetter(id, ev.letter))
  {
    PublishedLetter(o, m, pc, ev);
    LetterIsCopy(cfg, s, id, m, ev.letter);
  }

  lemma StoredIsCopy(cfg: Config, s: State, loop: Loop, ev: Retry.Event, id: nat, m: Retry.Incoming)
    requires EventAllowed(cfg, s, loop, ev, true) && m == Incoming(cfg, s, loop, loop.pc.i)
    requires 1 <= id <= |s.published| && m == Retry.Incoming(cfg.topic, s.published[id - 1])
    ensures IsCopy(cfg, s, DeadLetter(id, ev.letter))
  {
    SentIsCopy(cfg, s, id, m, loop.retry, loop.pc.rpc, ev);
  }

  lemma StepKeepsInv(cfg: Config, s: State, a: Action)
    requires Fidelity.Inv(s) && Inv(cfg, s) && Enabled(cfg, s, a)
    ensures Inv(cfg, Next(cfg, s, a))
  {
    var t := Next(cfg, s, a);
    PublishedGrows(cfg, s, a);
    if a.HandlerEvent? && a.stored {
      StoredAppends(cfg, s, a);
      var loop := s.loops[a.l];
      Fidelity.HandlingSeesPublished(cfg, s, loop);
      StoredIsCopy(cfg, s, loop, a.ev, IdAt(loop, loop.pc.i), Incoming(cfg, s, loop, loop.pc.i));
    } else {
      assert t.dlq == s.dlq;
    }
    forall k | 0 <= k < |t.dlq|
      ensures IsCopy(cfg, t, t.dlq[k])
    {
      CopyStays(cfg, s, t, t.dlq[k]);
    }
  }

  lemma {:induction false} RunKeepsInv(cfg: Config, run: seq<Action>)
    requires After(cfg, INIT, run).Some?
    ensures Inv(cfg, After(cfg, INIT, run).value)
    decreases |run|
  {
    if run == [] {
    } else {
      var n := |run| - 1;
      RunKeepsInv(cfg, run[..n]);
      Fidelity.RunKeepsInv(cfg, run[..n]);
      StepKeepsInv(cfg, After(cfg, INIT, run[..n]).value, run[n]);
    }
  }

  /** Main result. Every accepted dead letter, after any number of reclaims and whichever loop sent it,
      has the body of the message published under its id and exactly its headers, other than the two
      that the middleware sets. */
  lemma DeadLettersAreCopies(cfg: Config, run: seq<Action>, s: State, k: nat)
    requires After(cfg, INIT, run) == Some(s) && k < |s.dlq|
    ensures 1 <= s.dlq[k].id <= |s.published|
    ensures var original, letter := s.published[s.dlq[k].id - 1], s.dlq[k].letter;
      && letter.body == original.body
      && letter.header.Keys == original.header.Keys + {"X-Original-Topic", "X-Last-Error"}
      && letter.header["X-Original-Topic"] == cfg.topic
      && forall h | h in original.header && h !in {"X-Original-Topic", "X-Last-Error"} ::
           letter.header[h] == original.header[h]
  {
    RunKeepsInv(cfg, run);
    assert IsCopy(cfg, s, s.dlq[k]);
    assert "X-Original-Topic"[2] != "X-Last-Error"[2];
  }

  /** Main result. A dead-letter publish that finds the broker connected can be answered, and then the letter is
      stored and the middleware returns nil; one that finds it not connected stores nothing. */
  lemma OpenGateAccepts(cfg: Config, s: State, l: nat, letter: Message, topic: string)
    requires Enabled(cfg, s, AskDlq(l))
    requires var ev := Retry.DlqPublish(topic, letter, None);
      Retry.Step(s.loops[l].retry, Incoming(cfg, s, s.loops[l], s.loops[l].pc.i), s.loops[l].pc.rpc, ev).Some?
    ensures var ev, t := Retry.DlqPublish(topic, letter, None), Next(cfg, s, AskDlq(l));
      && (Enabled(cfg, t, HandlerEvent(l, ev, true)) <==> s.connected)
      && !Enabled(cfg, t, HandlerEvent(l, ev, false))
      && (s.connected ==>
            && Next(cfg, t, HandlerEvent(l, ev, true)).dlq
               == s.dlq + [DeadLetter(IdAt(s.loops[l], s.loops[l].pc.i), letter)]
            && l in Next(cfg, t, HandlerEvent(l, ev, true)).loops
            && Next(cfg, t, HandlerEvent(l, ev, true)).loops[l].pc.Handling?
            && Next(cfg, t, HandlerEvent(l, ev, true)).loops[l].pc.rpc == Retry.Returned(None))
  {
  }
}
