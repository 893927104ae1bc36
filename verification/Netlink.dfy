/** Route netlink datagrams: framing, and what a message says about the network. */
module Netlink {
  import opened Wrappers
  import opened Netfilter
  import opened Sequences

  type Byte = n: nat | n < 0x100

  const HEADER_BYTES := 16
  const MAX_DATAGRAM_BYTES := 64 * 1024
  const MAX_MESSAGES := 1024

  const NOOP := 1
  const ERROR := 2
  const DONE := 3
  const NEW_LINK := 16
  const DEL_LINK := 17
  const NEW_ADDR := 20
  const DEL_ADDR := 21
  const NEW_ROUTE := 24
  const DEL_ROUTE := 25
  const INET := 2
  const INET6 := 10

  datatype Action = Upsert | Remove

  datatype Change = Link | Address(family: IpFamily) | RouteOf(family: IpFamily)

  datatype Event = Event(action: Action, change: Change)

  datatype Error = DatagramTooLarge | Malformed | TooManyMessages | KernelError

  datatype Endian = Little | Big

  // ---- Numbers in the byte order of the machine ----

  function LittleBytes(n: nat, k: nat): (bs: seq<Byte>)
    ensures |bs| == k
  {
    if k == 0 then [] else [n % 0x100] + LittleBytes(n / 0x100, k - 1)
  }

  function LittleValue(bs: seq<Byte>): nat {
    if bs == [] then 0 else bs[0] + 0x100 * LittleValue(bs[1..])
  }

  function Reversed(bs: seq<Byte>): (r: seq<Byte>)
    ensures |r| == |bs|
  {
    if bs == [] then [] else Reversed(bs[1..]) + [bs[0]]
  }

  function ToBytes(e: Endian, n: nat, k: nat): (bs: seq<Byte>)
    ensures |bs| == k
  {
    if e.Little? then LittleBytes(n, k) else Reversed(LittleBytes(n, k))
  }

  function FromBytes(e: Endian, bs: seq<Byte>): nat {
    LittleValue(if e.Little? then bs else Reversed(bs))
  }

  function Capacity(k: nat): nat {
    if k == 0 then 1 else 0x100 * Capacity(k - 1)
  }

  lemma {:induction false} LittleRoundTrip(n: nat, k: nat)
    requires n < Capacity(k)
    ensures LittleValue(LittleBytes(n, k)) == n
  {
    if k > 0 {
      LittleRoundTrip(n / 0x100, k - 1);
      assert LittleBytes(n, k)[1..] == LittleBytes(n / 0x100, k - 1);
    }
  }

  lemma LowestByte(b: Byte, rest: nat)
    ensures (b + 0x100 * rest) % 0x100 == b && (b + 0x100 * rest) / 0x100 == rest
  {
  }

  lemma {:induction false} LittleBack(bs: seq<Byte>)
    ensures LittleValue(bs) < Capacity(|bs|)
    ensures LittleBytes(LittleValue(bs), |bs|) == bs
  {
    if bs != [] {
      LittleBack(bs[1..]);
      LowestByte(bs[0], LittleValue(bs[1..]));
      assert bs == [bs[0]] + bs[1..];
    }
  }

  lemma {:induction false} ReversedSnoc(bs: seq<Byte>, b: Byte)
    ensures Reversed(bs + [b]) == [b] + Reversed(bs)
  {
    if bs == [] {
      assert [] + [b] == [b] && [b][1..] == [] && Reversed([b]) == Reversed([]) + [b];
    } else {
      ReversedSnoc(bs[1..], b);
      assert (bs + [b])[1..] == bs[1..] + [b];
      assert [b] + (Reversed(bs[1..]) + [bs[0]]) == ([b] + Reversed(bs[1..])) + [bs[0]];
    }
  }

  lemma {:induction false} ReversedTwice(bs: seq<Byte>)
    ensures Reversed(Reversed(bs)) == bs
  {
    if bs != [] {
      ReversedTwice(bs[1..]);
      ReversedSnoc(Reversed(bs[1..]), bs[0]);
      assert bs == [bs[0]] + bs[1..];
    }
  }

  lemma NumberRoundTrip(e: Endian, n: nat, k: nat)
    requires n < Capacity(k)
    ensures FromBytes(e, ToBytes(e, n, k)) == n
  {
    LittleRoundTrip(n, k);
    ReversedTwice(LittleBytes(n, k));
  }

  lemma NumberBack(e: Endian, bs: seq<Byte>)
    ensures FromBytes(e, bs) < Capacity(|bs|)
    ensures ToBytes(e, FromBytes(e, bs), |bs|) == bs
  {
    LittleBack(bs);
    LittleBack(Reversed(bs));
    ReversedTwice(bs);
  }

  // ---- Messages ----

  /** A message: its type, the rest of its header, its payload and the padding to four bytes. */
  datatype Message = Message(kind: nat, flags: seq<Byte>, payload: seq<Byte>, padding: seq<Byte>) {
    function Length(): nat {
      HEADER_BYTES + |payload|
    }

    predicate WellFormed() {
      kind < 0x1_0000 && |flags| == 10 && Length() <= MAX_DATAGRAM_BYTES && Length() + |padding| == Align(Length())
    }
  }

  function Align(length: nat): (r: nat)
    ensures length <= r < length + 4 && r % 4 == 0
  {
    (length + 3) / 4 * 4
  }

  function Encode(e: Endian, m: Message): seq<Byte> {
    ToBytes(e, m.Length(), 4) + (ToBytes(e, m.kind, 2) + (m.flags + (m.payload + m.padding)))
  }

  function EncodeAll(e: Endian, ms: seq<Message>): seq<Byte> {
    if ms == [] then [] else Encode(e, ms[0]) + EncodeAll(e, ms[1..])
  }

  function ParseFamily(payload: seq<Byte>): Result<IpFamily, Error> {
    if payload == [] then Err(Malformed)
    else if payload[0] == INET then Ok(Ipv4)
    else if payload[0] == INET6 then Ok(Ipv6)
    else Err(Malformed)
  }

  function ParseMessage(kind: nat, payload: seq<Byte>): Result<Option<Event>, Error> {
    if kind == NOOP || kind == DONE then Ok(None)
    else if kind == ERROR then Err(KernelError)
    else if kind == NEW_LINK then Ok(Some(Event(Upsert, Link)))
    else if kind == DEL_LINK then Ok(Some(Event(Remove, Link)))
    else if kind in {NEW_ADDR, DEL_ADDR, NEW_ROUTE, DEL_ROUTE} then
      match ParseFamily(payload)
      case Err(error) => Err(error)
      case Ok(family) =>
        Ok(Some(Event(
                  if kind in {NEW_ADDR, NEW_ROUTE} then Upsert else Remove,
                  if kind in {NEW_ADDR, DEL_ADDR} then Address(family) else RouteOf(family))))
    else Ok(None)
  }

  function Listed(event: Option<Event>): seq<Event> {
    match event
    case None => []
    case Some(e) => [e]
  }

  function Then(event: Option<Event>, rest: Result<seq<Event>, Error>): Result<seq<Event>, Error> {
    match rest
    case Err(error) => Err(error)
    case Ok(events) => Ok(Listed(event) + events)
  }

  /** What a list of messages says: the events in order, or the first message that is an error. */
  function Meaning(ms: seq<Message>): Result<seq<Event>, Error> {
    if ms == [] then Ok([])
    else
      match ParseMessage(ms[0].kind, ms[0].payload)
      case Err(error) => Err(error)
      case Ok(event) => Then(event, Meaning(ms[1..]))
  }

  // ---- Parsing ----

  function ParseFrom(e: Endian, bytes: seq<Byte>, seen: nat): Result<seq<Event>, Error>
    decreases |bytes|
  {
    if bytes == [] then Ok([])
    else if |bytes| < HEADER_BYTES then Err(Malformed)
    else if seen + 1 > MAX_MESSAGES then Err(TooManyMessages)
    else
      var length := FromBytes(e, bytes[..4]);
      if length < HEADER_BYTES || length > |bytes| then Err(Malformed)
      else
        match ParseMessage(FromBytes(e, bytes[4..6]), bytes[HEADER_BYTES..length])
        case Err(error) => Err(error)
        case Ok(event) =>
          if Align(length) > |bytes| then Err(Malformed)
          else Then(event, ParseFrom(e, bytes[Align(length)..], seen + 1))
  }

  function Parse(e: Endian, bytes: seq<Byte>): Result<seq<Event>, Error> {
    if |bytes| > MAX_DATAGRAM_BYTES then Err(DatagramTooLarge) else ParseFrom(e, bytes, 0)
  }

  function Prepend(events: seq<Event>, rest: Result<seq<Event>, Error>): Result<seq<Event>, Error> {
    match rest
    case Err(error) => Err(error)
    case Ok(more) => Ok(events + more)
  }

  /** One turn of the loop: the event of the message at `offset`, and where the next one starts. */
  method NextMessage(e: Endian, bytes: seq<Byte>, offset: nat, seen: nat)
    returns (r: Result<(Option<Event>, nat), Error>)
    requires offset < |bytes|
    ensures r.Err? ==> ParseFrom(e, bytes[offset..], seen) == Err(r.error)
    ensures r.Ok? ==>
      && offset < r.value.1 <= |bytes|
      && ParseFrom(e, bytes[offset..], seen) == Then(r.value.0, ParseFrom(e, bytes[r.value.1..], seen + 1))
  {
    hide ParseFrom, FromBytes, ParseMessage, Then, Align;
    AtOffset(e, bytes, offset, seen);
    if |bytes| - offset < HEADER_BYTES {
      return Err(Malformed);
    }
    if seen + 1 > MAX_MESSAGES {
      return Err(TooManyMessages);
    }
    var length := FromBytes(e, bytes[offset..offset + 4]);
    var kind := FromBytes(e, bytes[offset + 4..offset + 6]);
    if length < HEADER_BYTES || length > |bytes| - offset {
      return Err(Malformed);
    }
    var parsed := ParseMessage(kind, bytes[offset + HEADER_BYTES..offset + length]);
    if parsed.Err? {
      return Err(parsed.error);
    }
    if Align(length) > |bytes| - offset {
      return Err(Malformed);
    }
    r := Ok((parsed.value, offset + Align(length)));
  }

  method ParseDatagram(e: Endian, bytes: seq<Byte>) returns (r: Result<seq<Event>, Error>)
    ensures r == Parse(e, bytes)
  {
    if |bytes| > MAX_DATAGRAM_BYTES {
      return Err(DatagramTooLarge);
    }
    var events: seq<Event>, offset, messages := [], 0, 0;
    assert bytes[0..] == bytes;
    PrependNothing(ParseFrom(e, bytes, 0));
    hide ParseFrom, Then, Prepend, Listed;
    while offset < |bytes|
      invariant 0 <= offset <= |bytes|
      invariant ParseFrom(e, bytes, 0) == Prepend(events, ParseFrom(e, bytes[offset..], messages))
      decreases |bytes| - offset
    {
      var next := NextMessage(e, bytes, offset, messages);
      if next.Err? {
        PrependError(events, next.error);
        return Err(next.error);
      }
      Regrouped(events, next.value.0, ParseFrom(e, bytes[next.value.1..], messages + 1));
      events := events + Listed(next.value.0);
      offset, messages := next.value.1, messages + 1;
    }
    NothingLeft(e, bytes[offset..], messages);
    PrependToNothing(events);
    r := Ok(events);
  }

  lemma NothingLeft(e: Endian, bytes: seq<Byte>, seen: nat)
    requires bytes == []
    ensures ParseFrom(e, bytes, seen) == Ok([])
  {
  }

  /** The specification, read at an offset into the datagram. */
  lemma AtOffset(e: Endian, bytes: seq<Byte>, offset: nat, seen: nat)
    requires offset < |bytes|
    ensures var left, result := |bytes| - offset, ParseFrom(e, bytes[offset..], seen);
      if left < HEADER_BYTES then result == Err(Malformed)
      else if seen + 1 > MAX_MESSAGES then result == Err(TooManyMessages)
      else
        var length := FromBytes(e, bytes[offset..offset + 4]);
        if length < HEADER_BYTES || length > left then result == Err(Malformed)
        else
          var parsed := ParseMessage(
            FromBytes(e, bytes[offset + 4..offset + 6]), bytes[offset + HEADER_BYTES..offset + length]);
          if parsed.Err? then result == Err(parsed.error)
          else if Align(length) > left then result == Err(Malformed)
          else result == Then(parsed.value, ParseFrom(e, bytes[offset + Align(length)..], seen + 1))
  {
    hide FromBytes, ParseMessage, Then;
    var rest := bytes[offset..];
    if |rest| >= HEADER_BYTES {
      assert rest[..4] == bytes[offset..offset + 4] && rest[4..6] == bytes[offset + 4..offset + 6];
      var length := FromBytes(e, bytes[offset..offset + 4]);
      if HEADER_BYTES <= length <= |rest| {
        assert rest[HEADER_BYTES..length] == bytes[offset + HEADER_BYTES..offset + length];
        assert Align(length) <= |rest| ==> rest[Align(length)..] == bytes[offset + Align(length)..];
      }
    }
  }

  lemma PrependNothing(rest: Result<seq<Event>, Error>)
    ensures Prepend([], rest) == rest
  {
    assert rest.Ok? ==> [] + rest.value == rest.value;
  }

  lemma PrependError(events: seq<Event>, error: Error)
    ensures Prepend(events, Err(error)) == Err(error)
  {
  }

  lemma PrependToNothing(events: seq<Event>)
    ensures Prepend(events, Ok([])) == Ok(events)
  {
    assert events + [] == events;
  }

  lemma Regrouped(events: seq<Event>, event: Option<Event>, rest: Result<seq<Event>, Error>)
    ensures Prepend(events, Then(event, rest)) == Prepend(events + Listed(event), rest)
  {
    if rest.Ok? {
      assert events + (Listed(event) + rest.value) == (events + Listed(event)) + rest.value;
    }
  }

  // ---- Framing ----

  ghost predicate AllWellFormed(ms: seq<Message>) {
    forall i :: 0 <= i < |ms| ==> ms[i].WellFormed()
  }

  lemma Capacities()
    ensures Capacity(2) == 0x1_0000 && Capacity(4) == 0x1_0000_0000
  {
    assert Capacity(1) == 0x100 && Capacity(3) == 0x100_0000;
  }

  /** Where the parts of a message lie, whatever follows. */
  lemma Layout(
    length: seq<Byte>, kind: seq<Byte>, flags: seq<Byte>, payload: seq<Byte>, padding: seq<Byte>, rest: seq<Byte>)
    ensures var bytes := (length + (kind + (flags + (payload + padding)))) + rest;
      var a := |length|;
      var b := a + |kind|;
      var c := b + |flags|;
      var d := c + |payload|;
      && |bytes| == d + |padding| + |rest|
      && bytes[..a] == length && bytes[a..b] == kind && bytes[c..d] == payload && bytes[d + |padding|..] == rest
  {
  }

  /** The first message of an encoding, read off its bytes. */
  lemma FrontOf(e: Endian, m: Message, rest: seq<Byte>)
    requires m.WellFormed()
    ensures var bytes := Encode(e, m) + rest;
      && |bytes| >= Align(m.Length()) && FromBytes(e, bytes[..4]) == m.Length()
      && FromBytes(e, bytes[4..6]) == m.kind
      && bytes[HEADER_BYTES..m.Length()] == m.payload && bytes[Align(m.Length())..] == rest
  {
    Capacities();
    NumberRoundTrip(e, m.Length(), 4);
    NumberRoundTrip(e, m.kind, 2);
    hide ToBytes, FromBytes, Capacity;
    Layout(ToBytes(e, m.Length(), 4), ToBytes(e, m.kind, 2), m.flags, m.payload, m.padding, rest);
  }

  /** Parsing an encoded list of messages gives its meaning. */
  lemma {:induction false} ParseEncoded(e: Endian, ms: seq<Message>, seen: nat)
    requires AllWellFormed(ms) && seen + |ms| <= MAX_MESSAGES
    ensures ParseFrom(e, EncodeAll(e, ms), seen) == Meaning(ms)
  {
    if ms != [] {
      ParseEncoded(e, ms[1..], seen + 1);
      FrontOf(e, ms[0], EncodeAll(e, ms[1..]));
      hide Encode, FromBytes, ParseMessage;
    }
  }

  function ReadMessage(e: Endian, bytes: seq<Byte>, length: nat): Message
    requires HEADER_BYTES <= length && Align(length) <= |bytes|
  {
    Message(FromBytes(e, bytes[4..6]), bytes[6..HEADER_BYTES], bytes[HEADER_BYTES..length], bytes[length..Align(length)])
  }

  lemma ReadBack(e: Endian, bytes: seq<Byte>, length: nat)
    requires HEADER_BYTES <= length && Align(length) <= |bytes| && |bytes| <= MAX_DATAGRAM_BYTES
    requires FromBytes(e, bytes[..4]) == length
    ensures ReadMessage(e, bytes, length).WellFormed()
    ensures ReadMessage(e, bytes, length).Length() == length
    ensures Encode(e, ReadMessage(e, bytes, length)) + bytes[Align(length)..] == bytes
  {
    NumberBack(e, bytes[..4]);
    NumberBack(e, bytes[4..6]);
    Capacities();
    hide ToBytes, FromBytes;
    var aligned := Align(length);
    Glue(bytes, HEADER_BYTES, length, aligned);
    Glue(bytes, 6, HEADER_BYTES, aligned);
    Glue(bytes, 4, 6, aligned);
    Glue(bytes, 0, 4, aligned);
    Glue(bytes, 0, aligned, |bytes|);
    assert bytes[0..4] == bytes[..4] && bytes[0..|bytes|] == bytes && bytes[aligned..|bytes|] == bytes[aligned..];
  }

  /** What it takes for a datagram that is not empty to parse. */
  lemma ParsedFront(e: Endian, bytes: seq<Byte>, seen: nat)
    requires bytes != [] && ParseFrom(e, bytes, seen).Ok?
    ensures HEADER_BYTES <= |bytes| && seen + 1 <= MAX_MESSAGES
    ensures var length := FromBytes(e, bytes[..4]);
      && HEADER_BYTES <= length && Align(length) <= |bytes|
      && ParseMessage(FromBytes(e, bytes[4..6]), bytes[HEADER_BYTES..length]).Ok?
      && ParseFrom(e, bytes[Align(length)..], seen + 1).Ok?
      && ParseFrom(e, bytes, seen)
         == Then(ParseMessage(FromBytes(e, bytes[4..6]), bytes[HEADER_BYTES..length]).value,
                 ParseFrom(e, bytes[Align(length)..], seen + 1))
  {
    hide FromBytes, ParseMessage;
  }

  /** Every datagram that parses is an encoded list of messages, of which the events are the meaning. */
  lemma {:induction false} ParsedIsEncoded(e: Endian, bytes: seq<Byte>, seen: nat) returns (ms: seq<Message>)
    requires |bytes| <= MAX_DATAGRAM_BYTES && ParseFrom(e, bytes, seen).Ok?
    ensures AllWellFormed(ms) && (ms != [] ==> seen + |ms| <= MAX_MESSAGES)
    ensures EncodeAll(e, ms) == bytes && Meaning(ms) == ParseFrom(e, bytes, seen)
    decreases |bytes|
  {
    if bytes == [] {
      ms := [];
      NothingLeft(e, bytes, seen);
    } else {
      ParsedFront(e, bytes, seen);
      var length := FromBytes(e, bytes[..4]);
      ReadBack(e, bytes, length);
      ms := ParsedIsEncoded(e, bytes[Align(length)..], seen + 1);
      ms := Prefixed(e, bytes, seen, length, ms);
    }
  }

  lemma Prefixed(e: Endian, bytes: seq<Byte>, seen: nat, length: nat, rest: seq<Message>) returns (ms: seq<Message>)
    requires HEADER_BYTES <= length && Align(length) <= |bytes| && seen + 1 <= MAX_MESSAGES
    requires ReadMessage(e, bytes, length).WellFormed()
    requires Encode(e, ReadMessage(e, bytes, length)) + bytes[Align(length)..] == bytes
    requires AllWellFormed(rest) && (rest != [] ==> seen + 1 + |rest| <= MAX_MESSAGES)
    requires EncodeAll(e, rest) == bytes[Align(length)..] && Meaning(rest).Ok?
    requires ParseMessage(FromBytes(e, bytes[4..6]), bytes[HEADER_BYTES..length]).Ok?
    ensures AllWellFormed(ms) && seen + |ms| <= MAX_MESSAGES && EncodeAll(e, ms) == bytes
    ensures Meaning(ms)
         == Then(ParseMessage(FromBytes(e, bytes[4..6]), bytes[HEADER_BYTES..length]).value, Meaning(rest))
  {
    hide Encode, FromBytes, ParseMessage, Then, Align;
    var first := ReadMessage(e, bytes, length);
    ms := [first] + rest;
    assert ms[0] == first && ms[1..] == rest;
  }

  /** Some list of messages, neither too many nor too long, is encoded as `bytes` and means `events`. */
  ghost predicate Frames(e: Endian, bytes: seq<Byte>, events: seq<Event>) {
    exists ms: seq<Message> ::
      && AllWellFormed(ms) && |ms| <= MAX_MESSAGES && |bytes| <= MAX_DATAGRAM_BYTES
      && bytes == EncodeAll(e, ms) && Meaning(ms) == Ok(events)
  }

  /** A datagram is accepted with certain events exactly when it is such an encoding. */
  lemma AcceptedExactly(e: Endian, bytes: seq<Byte>, events: seq<Event>)
    ensures Parse(e, bytes) == Ok(events) <==> Frames(e, bytes, events)
  {
    if Parse(e, bytes) == Ok(events) {
      var ms := ParsedIsEncoded(e, bytes, 0);
    }
    if Frames(e, bytes, events) {
      var ms: seq<Message> :|
        && AllWellFormed(ms) && |ms| <= MAX_MESSAGES && |bytes| <= MAX_DATAGRAM_BYTES
        && bytes == EncodeAll(e, ms) && Meaning(ms) == Ok(events);
      ParseEncoded(e, ms, 0);
    }
  }

  /** The round trip, errors included: a list of messages that fits is read back as what it means. */
  lemma RoundTrip(e: Endian, ms: seq<Message>)
    requires AllWellFormed(ms) && |ms| <= MAX_MESSAGES && |EncodeAll(e, ms)| <= MAX_DATAGRAM_BYTES
    ensures Parse(e, EncodeAll(e, ms)) == Meaning(ms)
  {
    ParseEncoded(e, ms, 0);
  }

  // ---- What the messages announce ----

  /** The type number of the message that announces an event: even for what is new, odd for what is gone. */
  function TypeNumber(event: Event): nat {
    (match event.change
     case Link => 16
     case Address(_) => 20
     case RouteOf(_) => 24)
    + if event.action == Upsert then 0 else 1
  }

  /** The address family in the first byte of the payload. */
  function FamilyByte(family: IpFamily): Byte {
    if family == Ipv4 then 2 else 10
  }

  predicate HasFamily(payload: seq<Byte>, family: IpFamily) {
    payload != [] && payload[0] == FamilyByte(family)
  }

  predicate Announces(kind: nat, payload: seq<Byte>, event: Event) {
    && kind == TypeNumber(event)
    && match event.change
       case Link => true
       case Address(family) => HasFamily(payload, family)
       case RouteOf(family) => HasFamily(payload, family)
  }

  /** A message is read as the event it announces, and as nothing else. */
  lemma Classified(kind: nat, payload: seq<Byte>)
    ensures forall event :: ParseMessage(kind, payload) == Ok(Some(event)) <==> Announces(kind, payload, event)
    ensures ParseMessage(kind, payload) == Err(KernelError) <==> kind == 2
    ensures ParseMessage(kind, payload) == Err(Malformed) <==>
      kind in {20, 21, 24, 25} && !HasFamily(payload, Ipv4) && !HasFamily(payload, Ipv6)
    ensures ParseMessage(kind, payload) == Ok(None) <==> kind !in {2, 16, 17, 20, 21, 24, 25}
  {
    forall event
      ensures ParseMessage(kind, payload) == Ok(Some(event)) <==> Announces(kind, payload, event)
    {
      match event.change
      case Link =>
      case Address(family) =>
      case RouteOf(family) =>
    }
  }

  /** The messages announce the events, one each. */
  ghost predicate AnnounceAll(ms: seq<Message>, events: seq<Event>) {
    |ms| == |events| && forall i :: 0 <= i < |ms| ==> Announces(ms[i].kind, ms[i].payload, events[i])
  }

  lemma {:induction false} AnnouncedMeaning(ms: seq<Message>, events: seq<Event>)
    requires AnnounceAll(ms, events)
    ensures Meaning(ms) == Ok(events)
  {
    hide Announces, ParseMessage;
    if ms != [] {
      Classified(ms[0].kind, ms[0].payload);
      assert Announces(ms[0].kind, ms[0].payload, events[0]);
      assert AnnounceAll(ms[1..], events[1..]) by {
        forall i | 0 <= i < |ms[1..]|
          ensures Announces(ms[1..][i].kind, ms[1..][i].payload, events[1..][i])
        {
          assert Announces(ms[i + 1].kind, ms[i + 1].payload, events[i + 1]);
        }
      }
      AnnouncedMeaning(ms[1..], events[1..]);
      assert events == [events[0]] + events[1..];
    }
  }

  /** A datagram that announces events, in either byte order, is read as exactly those events. */
  lemma EventsRoundTrip(e: Endian, ms: seq<Message>, events: seq<Event>)
    requires AllWellFormed(ms) && |ms| <= MAX_MESSAGES && |EncodeAll(e, ms)| <= MAX_DATAGRAM_BYTES
    requires AnnounceAll(ms, events)
    ensures Parse(e, EncodeAll(e, ms)) == Ok(events)
  {
    hide Parse, EncodeAll, Meaning, AnnounceAll, AllWellFormed;
    RoundTrip(e, ms);
    AnnouncedMeaning(ms, events);
  }
}
