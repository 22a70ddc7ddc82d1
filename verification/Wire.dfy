/** The wire form of a message in a Redis stream (`broker/redis/redis.go`): one field for the body
    and one `hdr.`-prefixed field per header. */
module Wire {
  import opened Prelude

  const BODY: string := "body"
  const PREFIX: string := "hdr."

  /** A stream entry as the server keeps it: field-value pairs in the order they were sent. */
  type Entry = seq<(string, string)>

  function FieldKeys(header: map<string, string>): set<string> {
    {BODY} + set k | k in header :: PREFIX + k
  }

  /** The field map that stands for a message. */
  function Fields(m: Message): map<string, string> {
    map f | f in FieldKeys(m.header) :: if PREFIX <= f && f[4..] in m.header then m.header[f[4..]] else m.body
  }

  function HeaderNames(values: map<string, string>): set<string> {
    set f | f in values && PREFIX <= f :: f[4..]
  }

  /** The message that a reply's field map stands for. */
  function Decode(values: map<string, string>): Message {
    Message(map k | k in HeaderNames(values) :: if PREFIX + k in values then values[PREFIX + k] else "",
            if BODY in values then values[BODY] else "")
  }

  lemma PrefixTake(k: string)
    ensures PREFIX <= PREFIX + k && (PREFIX + k)[4..] == k && PREFIX + k != BODY
  {
    assert (PREFIX + k)[0] == 'h' && BODY[0] == 'b';
  }

  lemma PrefixPut(f: string)
    requires PREFIX <= f
    ensures PREFIX + f[4..] == f
  {
  }

  lemma FieldsAt(m: Message)
    ensures BODY in Fields(m) && Fields(m)[BODY] == m.body
    ensures forall k | k in m.header :: PREFIX + k in Fields(m) && Fields(m)[PREFIX + k] == m.header[k]
  {
    assert !(PREFIX <= BODY) by { assert PREFIX[0] != BODY[0]; }
    forall k | k in m.header
      ensures PREFIX + k in Fields(m) && Fields(m)[PREFIX + k] == m.header[k]
    {
      PrefixTake(k);
    }
  }

  /** Building the field map, header by header in whatever order the map yields them. */
  method Encode(m: Message) returns (fields: map<string, string>)
    ensures fields == Fields(m)
    ensures "body" in fields && fields["body"] == m.body
    ensures forall k | k in m.header :: "hdr." + k in fields && fields["hdr." + k] == m.header[k]
    ensures forall f | f in fields :: f == "body" || exists k | k in m.header :: f == "hdr." + k
  {
    fields := map[];
    fields := fields[BODY := m.body];
    var rest := m.header.Keys;
    while rest != {}
      invariant rest <= m.header.Keys
      invariant fields.Keys == {BODY} + set k | k in m.header && k !in rest :: PREFIX + k
      invariant fields[BODY] == m.body
      invariant forall k | k in m.header && k !in rest :: PREFIX + k in fields && fields[PREFIX + k] == m.header[k]
      decreases rest
    {
      var key :| key in rest;
      ghost var before, was := fields, rest;
      fields := fields[PREFIX + key := m.header[key]];
      rest := rest - {key};
      PrefixTake(key);
      forall k | k in m.header && k !in rest
        ensures PREFIX + k in fields && fields[PREFIX + k] == m.header[k]
      {
        PrefixTake(k);
      }
      assert forall k | k in m.header && k !in rest :: k == key || k !in was;
    }
    FieldsAt(m);
    assert fields.Keys == FieldKeys(m.header);
    forall f | f in fields
      ensures fields[f] == Fields(m)[f]
    {
      if f != BODY {
        var k :| k in m.header && f == PREFIX + k;
        assert PREFIX + k in fields;
      }
    }
  }

  /** Reading a reply's field map back, field by field in whatever order the map yields them. */
  method DecodeValues(values: map<string, string>) returns (m: Message)
    ensures m == Decode(values)
    ensures m.body == if "body" in values then values["body"] else ""
    ensures forall k :: k in m.header <==> "hdr." + k in values
    ensures forall k | k in m.header :: m.header[k] == values["hdr." + k]
  {
    m := Message(map[], "");
    var rest := values.Keys;
    while rest != {}
      invariant rest <= values.Keys
      invariant m.body == if BODY in values && BODY !in rest then values[BODY] else ""
      invariant m.header.Keys == set f | f in values && f !in rest && PREFIX <= f :: f[4..]
      invariant forall k | k in m.header :: PREFIX + k in values && m.header[k] == values[PREFIX + k]
      decreases rest
    {
      var key :| key in rest;
      ghost var was := rest;
      if key == BODY {
        assert !(PREFIX <= BODY) by { assert PREFIX[0] != BODY[0]; }
        m := m.(body := values[key]);
      } else if PREFIX <= key {
        PrefixPut(key);
        m := m.(header := m.header[key[4..] := values[key]]);
      }
      rest := rest - {key};
      assert forall f | f in values && f !in rest :: f == key || f !in was;
    }
    assert m.header.Keys == HeaderNames(values);
    forall k
      ensures k in m.header <==> "hdr." + k in values
    {
      PrefixTake(k);
      assert k in m.header ==> PREFIX + k in values;
      assert "hdr." + k in values ==> ("hdr." + k)[4..] in HeaderNames(values);
    }
  }

  /** Decoding undoes encoding for every body and every header map: names such as "body", "" or
      "hdr.x" included. */
  lemma RoundTrip(m: Message)
    ensures Decode(Fields(m)) == m
  {
    FieldsAt(m);
    var values := Fields(m);
    forall k
      ensures k in HeaderNames(values) <==> k in m.header
    {
      PrefixTake(k);
      if k in m.header {
        assert PREFIX + k in values && PREFIX <= PREFIX + k && (PREFIX + k)[4..] == k;
      }
      if k in HeaderNames(values) {
        var f :| f in values && PREFIX <= f && f[4..] == k;
        PrefixPut(f);
        assert f != BODY by { assert PREFIX[0] != BODY[0]; }
        var k' :| k' in m.header && f == PREFIX + k';
        PrefixTake(k');
      }
    }
    assert Decode(values).header.Keys == m.header.Keys;
    assert Decode(values).header == m.header;
  }

  /** The reply's field map, as the client collects it from the pairs of an entry. */
  function Collect(e: Entry): map<string, string> {
    if e == [] then map[] else Collect(e[..|e| - 1])[e[|e| - 1].0 := e[|e| - 1].1]
  }

  /** `e` holds exactly the pairs of `fields`, each once, in some order. */
  ghost predicate Lists(e: Entry, fields: map<string, string>) {
    && (forall i, j | 0 <= i < j < |e| :: e[i].0 != e[j].0)
    && (forall i | 0 <= i < |e| :: e[i].0 in fields && fields[e[i].0] == e[i].1)
    && (forall f | f in fields :: exists i :: 0 <= i < |e| && e[i].0 == f)
  }

  /** The client sends the fields one after the other, in whatever order the map yields them. */
  method Send(fields: map<string, string>) returns (e: Entry)
    ensures Lists(e, fields)
  {
    e := [];
    var rest := fields.Keys;
    while rest != {}
      invariant rest <= fields.Keys
      invariant forall i | 0 <= i < |e| :: e[i].0 in fields && e[i].0 !in rest && fields[e[i].0] == e[i].1
      invariant forall i, j | 0 <= i < j < |e| :: e[i].0 != e[j].0
      invariant forall f | f in fields && f !in rest :: exists i :: 0 <= i < |e| && e[i].0 == f
      decreases rest
    {
      var field :| field in rest;
      ghost var was, before := e, rest;
      e := e + [(field, fields[field])];
      rest := rest - {field};
      forall f | f in fields && f !in rest
        ensures exists i :: 0 <= i < |e| && e[i].0 == f
      {
        if f == field {
          assert e[|was|].0 == f;
        } else {
          assert f !in before;
          var i :| 0 <= i < |was| && was[i].0 == f;
          assert e[i].0 == f;
        }
      }
    }
  }

  lemma {:induction false} CollectAt(e: Entry)
    requires forall i, j | 0 <= i < j < |e| :: e[i].0 != e[j].0
    ensures forall f :: f in Collect(e) <==> exists i :: 0 <= i < |e| && e[i].0 == f
    ensures forall i | 0 <= i < |e| :: e[i].0 in Collect(e) && Collect(e)[e[i].0] == e[i].1
  {
    if e == [] {
    } else {
      var n := |e| - 1;
      CollectAt(e[..n]);
      forall i | 0 <= i < |e|
        ensures e[i].0 in Collect(e) && Collect(e)[e[i].0] == e[i].1
      {
        if i < n {
          assert e[..n][i] == e[i];
        }
      }
      forall f | f in Collect(e)
        ensures exists i :: 0 <= i < |e| && e[i].0 == f
      {
        if f in Collect(e[..n]) {
          var i :| 0 <= i < n && e[..n][i].0 == f;
          assert e[i].0 == f;
        } else {
          assert e[n].0 == f;
        }
      }
    }
  }

  /** One field of a reply, as the decoding loop treats it. */
  function AddField(m: Message, field: string, value: string): Message {
    if field == BODY then m.(body := value)
    else if PREFIX <= field then m.(header := m.header[field[4..] := value])
    else m
  }

  /** The message a handler is given for a stored entry: its fields read one by one. */
  function Received(e: Entry): Message {
    if e == [] then Message(map[], "") else AddField(Received(e[..|e| - 1]), e[|e| - 1].0, e[|e| - 1].1)
  }

  lemma NameIsThere(values: map<string, string>, k: string)
    ensures k in HeaderNames(values) <==> PREFIX + k in values
  {
    PrefixTake(k);
    if k in HeaderNames(values) {
      var f :| f in values && PREFIX <= f && f[4..] == k;
      PrefixPut(f);
    }
    if PREFIX + k in values {
      assert PREFIX <= PREFIX + k && (PREFIX + k)[4..] == k;
    }
  }

  lemma DecodeAddsHeader(values: map<string, string>, field: string, value: string)
    requires PREFIX <= field
    ensures Decode(values[field := value]).header == Decode(values).header[field[4..] := value]
  {
    PrefixPut(field);
    var next, added := values[field := value], Decode(values).header[field[4..] := value];
    forall k
      ensures k in Decode(next).header <==> k in added
    {
      NameIsThere(values, k);
      NameIsThere(next, k);
    }
    forall k | k in added
      ensures Decode(next).header[k] == added[k]
    {
      NameIsThere(values, k);
      NameIsThere(next, k);
      PrefixTake(k);
    }
  }

  lemma DecodeSkips(values: map<string, string>, field: string, value: string)
    requires !(PREFIX <= field)
    ensures Decode(values[field := value]).header == Decode(values).header
  {
    var next := values[field := value];
    forall k
      ensures k in HeaderNames(next) <==> k in HeaderNames(values)
      ensures PREFIX + k in next && PREFIX + k in values ==> next[PREFIX + k] == values[PREFIX + k]
    {
      NameIsThere(values, k);
      NameIsThere(next, k);
      assert PREFIX <= PREFIX + k;
    }
    forall k | k in Decode(next).header
      ensures Decode(next).header[k] == Decode(values).header[k]
    {
      NameIsThere(values, k);
    }
  }

  lemma DecodeAdds(values: map<string, string>, field: string, value: string)
    ensures Decode(values[field := value]) == AddField(Decode(values), field, value)
  {
    assert !(PREFIX <= BODY) by { assert PREFIX[0] != BODY[0]; }
    if PREFIX <= field {
      DecodeAddsHeader(values, field, value);
    } else {
      DecodeSkips(values, field, value);
    }
  }

  /** Reading the fields in any order and with any repetitions is decoding the collected map. */
  lemma {:induction false} ReceivedIsDecoded(e: Entry)
    ensures Received(e) == Decode(Collect(e))
  {
    if e == [] {
      assert HeaderNames(map[]) == {};
    } else {
      var n := |e| - 1;
      ReceivedIsDecoded(e[..n]);
      DecodeAdds(Collect(e[..n]), e[n].0, e[n].1);
    }
  }

  /** The order in which the fields were sent and stored is irrelevant: whatever order an entry
      lists them in, every delivery of it yields the published message. */
  lemma DeliveryYieldsPublished(m: Message, e: Entry)
    requires Lists(e, Fields(m))
    ensures Received(e) == m
  {
    CollectAt(e);
    var fields := Fields(m);
    forall f | f in Collect(e)
      ensures f in fields && fields[f] == Collect(e)[f]
    {
      var i :| 0 <= i < |e| && e[i].0 == f;
    }
    assert Collect(e) == fields;
    RoundTrip(m);
    ReceivedIsDecoded(e);
  }

  /** Two messages with the same fields are the same message. */
  lemma FieldsInjective(a: Message, b: Message)
    ensures Fields(a) == Fields(b) <==> a == b
  {
    RoundTrip(a);
    RoundTrip(b);
  }
}
