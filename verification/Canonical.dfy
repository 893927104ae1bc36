/**
 * The canonical encoding.  A text stands for its UTF-8 bytes, one character each, and so does the encoding.
 * A field is written as the length of its name, its name, the length of its value and its value.
 */
module Canonical {
  import opened Wrappers
  import opened ProxyNode
  import opened Sequences
  import Decimal
  import Ordering

  const U32_SIZE := 0x1_0000_0000

  /** `(n as u32).to_be_bytes()`, which drops what does not fit. */
  function BigEndian(n: nat): string {
    var high := n / 0x100;
    var higher := high / 0x100;
    var highest := higher / 0x100;
    [(highest % 0x100) as char, (higher % 0x100) as char, (high % 0x100) as char, (n % 0x100) as char]
  }

  function FieldBytes(f: Field): string {
    BigEndian(|f.name|) + (f.name + (BigEndian(|f.value|) + f.value))
  }

  function Bytes(fields: seq<Field>): string {
    if fields == [] then "" else FieldBytes(fields[0]) + Bytes(fields[1..])
  }

  /** The lengths fit the prefix; a subscription body is limited to 5 MiB. */
  predicate Short(f: Field) {
    |f.name| < U32_SIZE && |f.value| < U32_SIZE
  }

  predicate AllShort(fields: seq<Field>) {
    forall i :: 0 <= i < |fields| ==> Short(fields[i])
  }

  lemma BigEndianInjective(m: nat, n: nat)
    requires m < U32_SIZE && n < U32_SIZE
    requires BigEndian(m) == BigEndian(n)
    ensures m == n
  {
    assert BigEndian(m)[0] == BigEndian(n)[0];
    assert m / 0x100 / 0x100 / 0x100 == n / 0x100 / 0x100 / 0x100;
    assert BigEndian(m)[1] == BigEndian(n)[1];
    assert m / 0x100 / 0x100 == n / 0x100 / 0x100;
    assert BigEndian(m)[2] == BigEndian(n)[2];
    assert m / 0x100 == n / 0x100;
    assert BigEndian(m)[3] == BigEndian(n)[3];
  }

  /** A length-prefixed text at the front of an encoding can be told from what follows it. */
  lemma PrefixedFront(s: string, t: string, x: string, y: string)
    requires |s| < U32_SIZE && |t| < U32_SIZE
    requires BigEndian(|s|) + (s + x) == BigEndian(|t|) + (t + y)
    ensures s == t && x == y
  {
    SplitAt(BigEndian(|s|), BigEndian(|t|), s + x, t + y);
    BigEndianInjective(|s|, |t|);
    SplitAt(s, t, x, y);
  }

  lemma FieldFront(f: Field, g: Field, x: string, y: string)
    requires Short(f) && Short(g)
    requires FieldBytes(f) + x == FieldBytes(g) + y
    ensures f == g && x == y
  {
    assert FieldBytes(f) + x == BigEndian(|f.name|) + (f.name + (BigEndian(|f.value|) + (f.value + x)));
    assert FieldBytes(g) + y == BigEndian(|g.name|) + (g.name + (BigEndian(|g.value|) + (g.value + y)));
    PrefixedFront(f.name, g.name, BigEndian(|f.value|) + (f.value + x), BigEndian(|g.value|) + (g.value + y));
    PrefixedFront(f.value, g.value, x, y);
  }

  /** Different lists of fields never share an encoding, whatever their names and values contain. */
  lemma {:induction false} BytesInjective(a: seq<Field>, b: seq<Field>)
    requires AllShort(a) && AllShort(b)
    requires Bytes(a) == Bytes(b)
    ensures a == b
  {
    if a != [] && b != [] {
      FieldFront(a[0], b[0], Bytes(a[1..]), Bytes(b[1..]));
      BytesInjective(a[1..], b[1..]);
      assert a == [a[0]] + a[1..] && b == [b[0]] + b[1..];
    }
  }

  lemma {:induction false} BytesAppend(a: seq<Field>, b: seq<Field>)
    ensures Bytes(a + b) == Bytes(a) + Bytes(b)
  {
    hide FieldBytes;
    if a == [] {
      assert a + b == b && "" + Bytes(b) == Bytes(b);
    } else {
      BytesAppend(a[1..], b);
      assert (a + b)[0] == a[0] && (a + b)[1..] == a[1..] + b;
      Regroup(FieldBytes(a[0]), Bytes(a[1..]), Bytes(b));
    }
  }

  // ---- Reading the fields of a node back, section by section ----

  ghost predicate Starts(fields: seq<Field>, name: string) {
    fields != [] && fields[0].name == name
  }

  /** A run of fields with one name ends where another name begins. */
  lemma {:induction false} RunFront(name: string, a: seq<string>, b: seq<string>, x: seq<Field>, y: seq<Field>)
    requires x != [] && y != [] && x[0].name != name && y[0].name != name
    requires Repeated(name, a) + x == Repeated(name, b) + y
    ensures a == b && x == y
  {
    var l, r := Repeated(name, a) + x, Repeated(name, b) + y;
    assert l[0] == r[0];
    if a == [] && b == [] {
      assert l == x && r == y;
    } else if a == [] || b == [] {
      assert false;
    } else {
      assert l[0] == Field(name, a[0]) && r[0] == Field(name, b[0]);
      assert l[1..] == Repeated(name, a[1..]) + x && r[1..] == Repeated(name, b[1..]) + y;
      RunFront(name, a[1..], b[1..], x, y);
      assert a == [a[0]] + a[1..] && b == [b[0]] + b[1..];
    }
  }

  lemma {:induction false} NamedInjective(a: Entries, b: Entries)
    requires Named(a) == Named(b)
    ensures a == b
  {
    if a != [] && b != [] {
      assert Named(a)[0] == Named(b)[0];
      assert Named(a)[1..] == Named(a[1..]) && Named(b)[1..] == Named(b[1..]);
      NamedInjective(a[1..], b[1..]);
      assert a == [a[0]] + a[1..] && b == [b[0]] + b[1..];
    }
  }

  lemma CredentialsFront(a: Credentials, b: Credentials, x: seq<Field>, y: seq<Field>)
    requires a.Protocol() == b.Protocol()
    requires a.ForShadowsocks? && a.plugin.Some? ==> a.plugin.value.name != ""
    requires b.ForShadowsocks? && b.plugin.Some? ==> b.plugin.value.name != ""
    requires Starts(x, "tls") && Starts(y, "tls")
    requires CredentialFields(a) + x == CredentialFields(b) + y
    ensures SameCredentials(a, b) && x == y
  {
    hide Decimal.Text, Joined;
    var l, r := CredentialFields(a) + x, CredentialFields(b) + y;
    assert l[0] == r[0];
    match a
    case ForVmess(_, alterId, _) =>
      assert l[1] == r[1] && l[2] == r[2];
      Decimal.TextInjective(alterId, b.alterId);
      SplitAt(CredentialFields(a), CredentialFields(b), x, y);
    case ForShadowsocks(_, _, _) =>
      assert l[1] == r[1] && l[2] == r[2];
      SplitAt(CredentialFields(a), CredentialFields(b), x, y);
      assert a.plugin.Some? ==> l[3] == r[3];
    case ForHysteria2(_, _) =>
      assert l[1] == r[1];
      SplitAt(CredentialFields(a), CredentialFields(b), x, y);
      assert a.obfs.Some? ==> l[2] == r[2];
    case ForTuic(_, _) =>
      assert l[1] == r[1];
      SplitAt(CredentialFields(a), CredentialFields(b), x, y);
    case ForHttp(_, _) =>
      assert l[1] == r[1];
      SplitAt(CredentialFields(a), CredentialFields(b), x, y);
    case ForSocks(_, _) =>
      assert l[1] == r[1];
      SplitAt(CredentialFields(a), CredentialFields(b), x, y);
    case _ =>
      SplitAt(CredentialFields(a), CredentialFields(b), x, y);
  }

  lemma RealityFront(a: Option<Reality>, b: Option<Reality>, x: seq<Field>, y: seq<Field>)
    requires a.Some? ==> Bounded(a.value.fingerprint)
    requires b.Some? ==> Bounded(b.value.fingerprint)
    requires Starts(x, "transport") && Starts(y, "transport")
    requires RealityFields(a) + x == RealityFields(b) + y
    ensures SameReality(a, b) && x == y
  {
    var l, r := RealityFields(a) + x, RealityFields(b) + y;
    assert l[0] == r[0];
    SplitAt(RealityFields(a), RealityFields(b), x, y);
    if a.Some? {
      assert l[1] == r[1] && l[2] == r[2];
    }
  }

  lemma TlsFront(a: Tls, b: Tls, x: seq<Field>, y: seq<Field>)
    requires Bounded(a.serverName) && Bounded(a.clientFingerprint)
    requires Bounded(b.serverName) && Bounded(b.clientFingerprint)
    requires a.reality.Some? ==> Bounded(a.reality.value.fingerprint)
    requires b.reality.Some? ==> Bounded(b.reality.value.fingerprint)
    requires Starts(x, "transport") && Starts(y, "transport")
    requires TlsFields(a) + x == TlsFields(b) + y
    ensures SameTls(a, b) && x == y
  {
    hide RealityFields, Repeated, SameReality;
    var fa, fb := TlsFlags(a), TlsFlags(b);
    var ua := [Field("utls", OrEmpty(a.clientFingerprint))];
    var ub := [Field("utls", OrEmpty(b.clientFingerprint))];
    var restA, restB := RealityFields(a.reality) + x, RealityFields(b.reality) + y;
    TlsShape(a, x);
    TlsShape(b, y);
    SplitAt(fa, fb, Repeated("alpn", a.alpn) + (ua + restA), Repeated("alpn", b.alpn) + (ub + restB));
    assert fa[0] == fb[0] && fa[1] == fb[1] && fa[2] == fb[2];
    RunFront("alpn", a.alpn, b.alpn, ua + restA, ub + restB);
    SplitAt(ua, ub, restA, restB);
    assert ua[0] == ub[0];
    RealityFront(a.reality, b.reality, x, y);
  }

  function TlsFlags(tls: Tls): seq<Field> {
    [Field("tls", Bit(tls.enabled)), Field("insecure", Bit(tls.insecure)), Field("sni", OrEmpty(tls.serverName))]
  }

  lemma TlsShape(tls: Tls, x: seq<Field>)
    ensures var utls := [Field("utls", OrEmpty(tls.clientFingerprint))];
      TlsFields(tls) + x == TlsFlags(tls) + (Repeated("alpn", tls.alpn) + (utls + (RealityFields(tls.reality) + x)))
  {
    hide RealityFields, Repeated;
    var utls, reality := [Field("utls", OrEmpty(tls.clientFingerprint))], RealityFields(tls.reality);
    Regroup(utls, reality, x);
    Regroup(Repeated("alpn", tls.alpn), utls + reality, x);
    Regroup(TlsFlags(tls), Repeated("alpn", tls.alpn) + (utls + reality), x);
  }

  lemma ProtocolTextInjective(a: Protocol, b: Protocol)
    requires ProtocolText(a) == ProtocolText(b)
    ensures a == b
  {
    assert |ProtocolText(a)| == |ProtocolText(b)| && ProtocolText(a)[0] == ProtocolText(b)[0];
    assert ProtocolText(a)[1] == ProtocolText(b)[1];
  }

  lemma KindTextInjective(a: TransportKind, b: TransportKind)
    requires KindText(a) == KindText(b)
    ensures a == b
  {
    assert |KindText(a)| == |KindText(b)| && KindText(a)[0] == KindText(b)[0];
  }

  predicate CarriesHeaders(kind: TransportKind) {
    kind in {OnWebSocket, OnHttpUpgrade}
  }

  /** What follows the transport: the protocol's options and the UDP flag. */
  function Tail(node: Node): seq<Field> {
    OptionFields(node.options) + [UdpField(node.udp)]
  }

  lemma TailStart(node: Node)
    ensures Tail(node) != [] && Tail(node)[0].name != "host"
  {
    var fields := OptionFields(node.options);
    assert fields == [] ==> Tail(node)[0] == UdpField(node.udp);
    assert fields != [] ==> Tail(node)[0] == fields[0];
    if node.options.HysteriaOptions? && node.options.serverPorts != [] {
      assert fields[0].name == "server_port";
    }
  }

  lemma PlainTransportFront(a: Transport, b: Transport, x: seq<Field>, y: seq<Field>)
    requires a.Kind() == b.Kind() && !CarriesHeaders(a.Kind())
    requires x != [] && y != [] && x[0].name != "host" && y[0].name != "host"
    requires TransportFields(a) + x == TransportFields(b) + y
    ensures a == b && x == y
  {
    var l, r := TransportFields(a) + x, TransportFields(b) + y;
    match a
    case HttpTransport(path, hosts) =>
      assert l[1] == r[1];
      assert l[2..] == Repeated("host", hosts) + x && r[2..] == Repeated("host", b.hosts) + y;
      RunFront("host", hosts, b.hosts, x, y);
    case Grpc(_) =>
      assert l[1] == r[1];
      SplitAt(TransportFields(a), TransportFields(b), x, y);
    case _ =>
      SplitAt(TransportFields(a), TransportFields(b), x, y);
  }

  lemma UdpOverTcpInjective(a: Option<UdpOverTcp>, b: Option<UdpOverTcp>)
    requires UdpOverTcpFields(a) == UdpOverTcpFields(b)
    ensures a == b
  {
    hide Decimal.Text;
    assert |UdpOverTcpFields(a)| == |UdpOverTcpFields(b)|;
    if a.Some? {
      assert UdpOverTcpFields(a)[0] == UdpOverTcpFields(b)[0] && UdpOverTcpFields(a)[1] == UdpOverTcpFields(b)[1];
      assert |Truth(a.value.enabled)| == |Truth(b.value.enabled)|;
      Decimal.TextInjective(a.value.version, b.value.version);
    }
  }

  lemma HysteriaInjective(a: Options, b: Options)
    requires a.HysteriaOptions? && b.HysteriaOptions? && BoundedOptions(a) && BoundedOptions(b)
    requires OptionFields(a) == OptionFields(b)
    ensures SameOptions(a, b)
  {
    hide Decimal.Text, Repeated;
    var x := [Field("hop_interval", OrEmpty(a.hopInterval)), Field("up_mbps", Decimal.Text(OrZero(a.up))),
              Field("down_mbps", Decimal.Text(OrZero(a.down)))];
    var y := [Field("hop_interval", OrEmpty(b.hopInterval)), Field("up_mbps", Decimal.Text(OrZero(b.up))),
              Field("down_mbps", Decimal.Text(OrZero(b.down)))];
    RunFront("server_port", a.serverPorts, b.serverPorts, x, y);
    assert x[0] == y[0] && x[1] == y[1] && x[2] == y[2];
    Decimal.TextInjective(OrZero(a.up), OrZero(b.up));
    Decimal.TextInjective(OrZero(a.down), OrZero(b.down));
  }

  lemma TuicInjective(a: Options, b: Options)
    requires a.TuicOptions? && b.TuicOptions? && BoundedOptions(a) && BoundedOptions(b)
    requires OptionFields(a) == OptionFields(b)
    ensures a == b
  {
    var x, y := OptionFields(a), OptionFields(b);
    assert x[0] == y[0] && x[1] == y[1] && x[2] == y[2] && x[3] == y[3] && x[4] == y[4];
    assert |Truth(a.overStream)| == |Truth(b.overStream)| && |Truth(a.zeroRtt)| == |Truth(b.zeroRtt)|;
  }

  lemma OptionsInjective(a: Options, b: Options, protocol: Protocol)
    requires a.Fits(protocol) && b.Fits(protocol) && BoundedOptions(a) && BoundedOptions(b)
    requires OptionFields(a) == OptionFields(b)
    ensures SameOptions(a, b)
  {
    hide Decimal.Text, UdpOverTcpFields, Named;
    var x, y := OptionFields(a), OptionFields(b);
    match a
    case NoOptions =>
    case VlessOptions(_) => assert x[0] == y[0];
    case ShadowsocksOptions(o) => UdpOverTcpInjective(o, b.udpOverTcp);
    case HysteriaOptions(_, _, _, _) => HysteriaInjective(a, b);
    case TuicOptions(_, _, _, _, _) => TuicInjective(a, b);
    case AnyTlsOptions(_, _, minIdle) =>
      assert x[0] == y[0] && x[1] == y[1] && x[2] == y[2];
      Decimal.TextInjective(OrZero(minIdle), OrZero(b.minIdle));
    case HttpOptions(_, headers) =>
      assert x[0] == y[0] && x[1..] == Named(headers) && y[1..] == Named(b.httpHeaders);
      NamedInjective(headers, b.httpHeaders);
    case SocksOptions(_, o) =>
      assert x[0] == y[0] && x[1..] == UdpOverTcpFields(o) && y[1..] == UdpOverTcpFields(b.udpOverTcp);
      UdpOverTcpInjective(o, b.udpOverTcp);
  }

  /** The last option of a protocol with one or three options tells which it is. */
  lemma HeadersBack(a: Node, b: Node, headersA: Entries, headersB: Entries)
    requires a.protocol == b.protocol && a.protocol !in {Shadowsocks, Http, Hysteria2, Tuic}
    requires a.options.Fits(a.protocol) && b.options.Fits(b.protocol)
    requires Named(headersA) + Tail(a) == Named(headersB) + Tail(b)
    ensures headersA == headersB && OptionFields(a.options) == OptionFields(b.options) && a.udp == b.udp
  {
    hide Decimal.Text, Named;
    var oa, ob := OptionFields(a.options), OptionFields(b.options);
    var l, r := Named(headersA) + oa, Named(headersB) + ob;
    Regroup(Named(headersA), oa, [UdpField(a.udp)]);
    Regroup(Named(headersB), ob, [UdpField(b.udp)]);
    SplitAt(l, r, [UdpField(a.udp)], [UdpField(b.udp)]);
    assert [UdpField(a.udp)][0] == [UdpField(b.udp)][0];
    if a.protocol.Socks? {
      assert l[|l| - 1] == oa[|oa| - 1] && r[|r| - 1] == ob[|ob| - 1];
    }
    assert |oa| == |ob|;
    SplitAt(Named(headersA), Named(headersB), oa, ob);
    NamedInjective(headersA, headersB);
  }

  /** Everything before the transport's own fields is read back, for any two nodes. */
  lemma FrontOfNode(a: Node, b: Node)
    requires Shaped(a) && Shaped(b) && NodeFields(a) == NodeFields(b)
    ensures a.protocol == b.protocol && a.server == b.server && a.port == b.port
    ensures SameCredentials(a.credentials, b.credentials) && SameTls(a.tls, b.tls)
    ensures a.transport.Kind() == b.transport.Kind()
    ensures TransportFields(a.transport) + Tail(a) == TransportFields(b.transport) + Tail(b)
  {
    hide Decimal.Text, CredentialFields, TlsFields, SameCredentials, SameTls, OptionFields, Tail;
    HeadOfNode(a, b);
    var xa, xb := TransportFields(a.transport) + Tail(a), TransportFields(b.transport) + Tail(b);
    TlsStarts(a.tls, xa);
    TlsStarts(b.tls, xb);
    CredentialsFront(a.credentials, b.credentials, TlsFields(a.tls) + xa, TlsFields(b.tls) + xb);
    TlsFront(a.tls, b.tls, xa, xb);
    assert xa[0] == xb[0];
    KindTextInjective(a.transport.Kind(), b.transport.Kind());
  }

  lemma TlsStarts(tls: Tls, rest: seq<Field>)
    ensures Starts(TlsFields(tls) + rest, "tls")
  {
    assert (TlsFields(tls) + rest)[0] == TlsFields(tls)[0];
  }

  lemma HeadOfNode(a: Node, b: Node)
    requires NodeFields(a) == NodeFields(b)
    ensures a.protocol == b.protocol && a.server == b.server && a.port == b.port
    ensures CredentialFields(a.credentials) + (TlsFields(a.tls) + (TransportFields(a.transport) + Tail(a)))
         == CredentialFields(b.credentials) + (TlsFields(b.tls) + (TransportFields(b.transport) + Tail(b)))
  {
    hide Decimal.Text, CredentialFields, TlsFields, TransportFields, OptionFields, ProtocolText;
    var restA := CredentialFields(a.credentials) + (TlsFields(a.tls) + (TransportFields(a.transport) + Tail(a)));
    var restB := CredentialFields(b.credentials) + (TlsFields(b.tls) + (TransportFields(b.transport) + Tail(b)));
    var headA := [Field("schema", "1"), Field("protocol", ProtocolText(a.protocol)), Field("server", a.server),
                  Field("port", Decimal.Text(a.port))];
    var headB := [Field("schema", "1"), Field("protocol", ProtocolText(b.protocol)), Field("server", b.server),
                  Field("port", Decimal.Text(b.port))];
    SplitAt(headA, headB, restA, restB);
    assert headA[1] == headB[1] && headA[2] == headB[2] && headA[3] == headB[3];
    ProtocolTextInjective(a.protocol, b.protocol);
    Decimal.TextInjective(a.port, b.port);
  }

  lemma TailInjective(a: Node, b: Node)
    requires Shaped(a) && Shaped(b) && a.protocol == b.protocol && Tail(a) == Tail(b)
    ensures SameOptions(a.options, b.options) && a.udp == b.udp
  {
    hide OptionFields, SameOptions, BoundedOptions;
    SplitAt(OptionFields(a.options), OptionFields(b.options), [UdpField(a.udp)], [UdpField(b.udp)]);
    assert [UdpField(a.udp)][0] == [UdpField(b.udp)][0];
    OptionsInjective(a.options, b.options, a.protocol);
  }

  function HeadersOf(t: Transport): Entries {
    match t
    case WebSocket(_, headers) => headers
    case HttpUpgrade(_, headers) => headers
    case _ => []
  }

  lemma HeaderTransportFront(a: Node, b: Node)
    requires a.transport.Kind() == b.transport.Kind() && CarriesHeaders(a.transport.Kind())
    requires TransportFields(a.transport) + Tail(a) == TransportFields(b.transport) + Tail(b)
    ensures a.transport.path == b.transport.path
    ensures Named(HeadersOf(a.transport)) + Tail(a) == Named(HeadersOf(b.transport)) + Tail(b)
  {
    hide OptionFields, Tail, Named, KindText;
    var frontA := [Field("transport", KindText(a.transport.Kind())), Field("path", a.transport.path)];
    var frontB := [Field("transport", KindText(b.transport.Kind())), Field("path", b.transport.path)];
    var restA, restB := Named(HeadersOf(a.transport)), Named(HeadersOf(b.transport));
    assert TransportFields(a.transport) == frontA + restA && TransportFields(b.transport) == frontB + restB;
    Regroup(frontA, restA, Tail(a));
    Regroup(frontB, restB, Tail(b));
    SplitAt(frontA, frontB, restA + Tail(a), restB + Tail(b));
    assert frontA[1] == frontB[1];
  }

  predicate LacksKey(entries: Entries, key: string) {
    forall i :: 0 <= i < |entries| ==> entries[i].0 != key
  }

  /**
   * No header of the transport can be taken for one of the options that follow it: only Shadowsocks and HTTP
   * have blocks of options whose beginning is not fixed by where they end.
   */
  predicate Clear(node: Node) {
    CarriesHeaders(node.transport.Kind()) ==>
      && (node.protocol.Shadowsocks? ==> LacksKey(HeadersOf(node.transport), "udp_over_tcp_version"))
      && (node.protocol.Http? ==> LacksKey(HeadersOf(node.transport), "http_path"))
  }

  lemma {:induction false} NamedAt(entries: Entries, i: nat)
    requires i < |entries|
    ensures |Named(entries)| == |entries| && Named(entries)[i] == Field(entries[i].0, entries[i].1)
  {
    var tail := Named(entries[1..]);
    var first := Field(entries[0].0, entries[0].1);
    assert Named(entries) == [first] + tail;
    if i == 0 {
      assert ([first] + tail)[0] == first;
      if |entries| > 1 {
        NamedAt(entries[1..], 0);
      }
    } else {
      NamedAt(entries[1..], i - 1);
      assert ([first] + tail)[i] == tail[i - 1];
    }
  }

  /** Entries that lack a key end where a field of that name begins. */
  lemma {:induction false} EntriesFront(key: string, a: Entries, b: Entries, x: seq<Field>, y: seq<Field>)
    requires LacksKey(a, key) && LacksKey(b, key) && Starts(x, key) && Starts(y, key)
    requires Named(a) + x == Named(b) + y
    ensures a == b && x == y
  {
    var l, r := Named(a) + x, Named(b) + y;
    assert l[0] == r[0];
    if a == [] && b == [] {
      assert l == x && r == y;
    } else if a == [] || b == [] {
      assert false;
    } else {
      var fa, fb := [Field(a[0].0, a[0].1)], [Field(b[0].0, b[0].1)];
      Regroup(fa, Named(a[1..]), x);
      Regroup(fb, Named(b[1..]), y);
      SplitAt(fa, fb, Named(a[1..]) + x, Named(b[1..]) + y);
      assert fa[0] == fb[0];
      hide Named;
      EntriesFront(key, a[1..], b[1..], x, y);
      assert a == [a[0]] + a[1..] && b == [b[0]] + b[1..];
    }
  }

  lemma HttpBack(a: Node, b: Node, headersA: Entries, headersB: Entries)
    requires a.options.HttpOptions? && b.options.HttpOptions?
    requires LacksKey(headersA, "http_path") && LacksKey(headersB, "http_path")
    requires Named(headersA) + Tail(a) == Named(headersB) + Tail(b)
    ensures headersA == headersB && Tail(a) == Tail(b)
  {
    hide Named;
    assert Tail(a)[0] == OptionFields(a.options)[0] && Tail(b)[0] == OptionFields(b.options)[0];
    EntriesFront("http_path", headersA, headersB, Tail(a), Tail(b));
  }

  /** Headers followed by all three fields cannot equal headers alone that end in another name. */
  lemma ShadowsocksSplit(a: Node, b: Node, headersA: Entries, headersB: Entries)
    requires a.options.ShadowsocksOptions? && b.options.ShadowsocksOptions?
    requires LacksKey(headersA, "udp_over_tcp_version")
    requires Named(headersA) + Tail(a) == Named(headersB) + Tail(b)
    ensures b.options.udpOverTcp.Some? ==> a.options.udpOverTcp.Some?
  {
    assert Named([]) == [];
    hide Named, Decimal.Text;
    var l, r := Named(headersA) + Tail(a), Named(headersB) + Tail(b);
    if headersA != [] {
      NamedAt(headersA, |headersA| - 1);
      assert a.options.udpOverTcp.None? ==> l[|l| - 2] == Named(headersA)[|headersA| - 1];
    }
    assert b.options.udpOverTcp.Some? ==> r[|r| - 2] == OptionFields(b.options)[1];
  }

  lemma ShadowsocksBack(a: Node, b: Node, headersA: Entries, headersB: Entries)
    requires a.options.ShadowsocksOptions? && b.options.ShadowsocksOptions?
    requires LacksKey(headersA, "udp_over_tcp_version") && LacksKey(headersB, "udp_over_tcp_version")
    requires Named(headersA) + Tail(a) == Named(headersB) + Tail(b)
    ensures headersA == headersB && Tail(a) == Tail(b)
  {
    hide Named, Decimal.Text;
    ShadowsocksSplit(a, b, headersA, headersB);
    ShadowsocksSplit(b, a, headersB, headersA);
    SplitAt(Named(headersA), Named(headersB), Tail(a), Tail(b));
    NamedInjective(headersA, headersB);
  }

  lemma FieldsInjective(a: Node, b: Node)
    requires Shaped(a) && Shaped(b) && Clear(a) && Clear(b)
    requires NodeFields(a) == NodeFields(b)
    ensures SameConnection(a, b)
  {
    hide NodeFields, TransportFields, OptionFields, SameCredentials, SameTls, SameOptions, BoundedOptions, Named, Tail,
         LacksKey;
    FrontOfNode(a, b);
    if CarriesHeaders(a.transport.Kind()) {
      HeaderTransportFront(a, b);
      var headersA, headersB := HeadersOf(a.transport), HeadersOf(b.transport);
      if a.protocol.Shadowsocks? {
        ShadowsocksBack(a, b, headersA, headersB);
        TailInjective(a, b);
      } else if a.protocol.Http? {
        HttpBack(a, b, headersA, headersB);
        TailInjective(a, b);
      } else {
        HeadersBack(a, b, headersA, headersB);
        OptionsInjective(a.options, b.options, a.protocol);
      }
    } else {
      TailStart(a);
      TailStart(b);
      PlainTransportFront(a.transport, b.transport, Tail(a), Tail(b));
      TailInjective(a, b);
    }
  }

  lemma SameConnectionSameFields(a: Node, b: Node)
    requires SameConnection(a, b)
    ensures NodeFields(a) == NodeFields(b)
  {
    hide Decimal.Text, Repeated, Named, Joined, TransportFields, ProtocolText;
    assert CredentialFields(a.credentials) == CredentialFields(b.credentials);
    assert TlsFields(a.tls) == TlsFields(b.tls);
    assert OptionFields(a.options) == OptionFields(b.options);
  }

  function CanonicalBytes(node: Node): string {
    Bytes(NodeFields(node))
  }

  /** Two validated nodes have the same canonical bytes exactly when they are the same connection. */
  lemma SameBytesExactly(a: Node, b: Node)
    requires Valid(a) && Valid(b) && Clear(a) && Clear(b)
    requires AllShort(NodeFields(a)) && AllShort(NodeFields(b))
    ensures CanonicalBytes(a) == CanonicalBytes(b) <==> SameConnection(a, b)
  {
    hide NodeFields, SameConnection, Clear, Shaped, Bytes;
    if CanonicalBytes(a) == CanonicalBytes(b) {
      BytesInjective(NodeFields(a), NodeFields(b));
      FieldsInjective(a, b);
    }
    if SameConnection(a, b) {
      SameConnectionSameFields(a, b);
    }
  }

  /**
   * The canonical bytes identify connections: any two nodes that the program accepts have the same bytes exactly
   * when they are the same connection.
   */
  lemma AcceptedIdentified(a: Node, b: Node)
    requires Accepted(a) && Accepted(b)
    requires AllShort(NodeFields(a)) && AllShort(NodeFields(b))
    ensures CanonicalBytes(a) == CanonicalBytes(b) <==> SameConnection(a, b)
  {
    AcceptedIsClear(a);
    AcceptedIsClear(b);
    hide Valid, NodeFields, CanonicalBytes, SameConnection, Clear, AllShort;
    SameBytesExactly(a, b);
  }

  lemma AcceptedIsClear(node: Node)
    requires Accepted(node)
    ensures Clear(node)
  {
    hide Valid;
  }

  // ---- Where the encoding would be ambiguous under a wider capability matrix ----

  /** A valid node of one protocol over one kind of transport. */
  ghost predicate Member(node: Node, protocol: Protocol, kind: TransportKind) {
    Valid(node) && node.protocol == protocol && node.transport.Kind() == kind && AllShort(NodeFields(node))
  }

  ghost predicate Identifies(protocol: Protocol, kind: TransportKind) {
    forall a: Node, b: Node :: Member(a, protocol, kind) && Member(b, protocol, kind) ==>
      (CanonicalBytes(a) == CanonicalBytes(b) <==> SameConnection(a, b))
  }

  function Over(kind: TransportKind, headers: Entries): Transport
    requires CarriesHeaders(kind)
  {
    if kind.OnWebSocket? then WebSocket("/", headers) else HttpUpgrade("/", headers)
  }

  const PLAIN_TLS := Tls(false, false, None, [], None, None)

  function ShadowsocksNode(kind: TransportKind, headers: Entries, udpOverTcp: Option<UdpOverTcp>): Node
    requires CarriesHeaders(kind)
  {
    Node(Shadowsocks, "s", 1, ForShadowsocks("aes-128-gcm", "p", None), PLAIN_TLS, Over(kind, headers),
         ShadowsocksOptions(udpOverTcp), false)
  }

  function HttpNode(kind: TransportKind, headers: Entries, path: string, httpHeaders: Entries): Node
    requires CarriesHeaders(kind)
  {
    Node(Http, "s", 1, ForHttp(None, None), PLAIN_TLS, Over(kind, headers), HttpOptions(Some(path), httpHeaders), false)
  }

  lemma AllShortAppend(a: seq<Field>, b: seq<Field>)
    requires AllShort(a) && AllShort(b)
    ensures AllShort(a + b)
  {
  }

  lemma {:induction false} AllShortNamed(entries: Entries)
    requires forall i :: 0 <= i < |entries| ==> |entries[i].0| < U32_SIZE && |entries[i].1| < U32_SIZE
    ensures AllShort(Named(entries))
  {
    if entries != [] {
      AllShortNamed(entries[1..]);
      AllShortAppend([Field(entries[0].0, entries[0].1)], Named(entries[1..]));
    }
  }

  /** The fields of a node all fit their prefixes if its variable parts do. */
  lemma ExampleIsShort(node: Node, kind: TransportKind, headers: Entries)
    requires CarriesHeaders(kind) && node.transport == Over(kind, headers)
    requires node.server == "s" && node.port == 1 && node.tls == PLAIN_TLS
    requires AllShort(CredentialFields(node.credentials)) && AllShort(Named(headers)) && AllShort(Tail(node))
    ensures AllShort(NodeFields(node))
  {
    hide CredentialFields, Named, OptionFields;
    assert |KindText(kind)| < 20 && |ProtocolText(node.protocol)| < 20;
    assert AllShort(TlsFields(node.tls));
    assert TransportFields(node.transport)
        == [Field("transport", KindText(kind)), Field("path", "/")] + Named(headers);
    AllShortAppend([Field("transport", KindText(kind)), Field("path", "/")], Named(headers));
    AllShortAppend(TransportFields(node.transport), Tail(node));
    AllShortAppend(TlsFields(node.tls), TransportFields(node.transport) + Tail(node));
    var rest := TlsFields(node.tls) + (TransportFields(node.transport) + Tail(node));
    AllShortAppend(CredentialFields(node.credentials), rest);
    assert AllShort([Field("schema", "1"), Field("protocol", ProtocolText(node.protocol)), Field("server", node.server),
                     Field("port", Decimal.Text(node.port))]);
    assert NodeFields(node) ==
      [Field("schema", "1"), Field("protocol", ProtocolText(node.protocol)), Field("server", node.server),
       Field("port", Decimal.Text(node.port))] + (CredentialFields(node.credentials) + rest);
  }

  lemma TwinsShareFields(a: Node, b: Node)
    requires a.(transport := b.transport, options := b.options) == b
    requires TransportFields(a.transport) + Tail(a) == TransportFields(b.transport) + Tail(b)
    ensures NodeFields(a) == NodeFields(b)
  {
    hide CredentialFields, TlsFields, TransportFields, OptionFields, Decimal.Text, ProtocolText;
  }

  lemma HeadersThenTail(kind: TransportKind, a: Node, b: Node, headersA: Entries, headersB: Entries)
    requires CarriesHeaders(kind) && a.transport == Over(kind, headersA) && b.transport == Over(kind, headersB)
    requires Named(headersA) + Tail(a) == Named(headersB) + Tail(b)
    ensures TransportFields(a.transport) + Tail(a) == TransportFields(b.transport) + Tail(b)
  {
    hide Named, Tail;
    var front := [Field("transport", KindText(kind)), Field("path", "/")];
    assert TransportFields(a.transport) + Tail(a) == front + (Named(headersA) + Tail(a));
    assert TransportFields(b.transport) + Tail(b) == front + (Named(headersB) + Tail(b));
  }

  lemma ShadowsocksExample(kind: TransportKind, headers: Entries, udpOverTcp: Option<UdpOverTcp>)
    requires CarriesHeaders(kind) && ValidTransport(Over(kind, headers)) && AllShort(Named(headers))
    requires AllShort(UdpOverTcpFields(udpOverTcp))
    ensures Member(ShadowsocksNode(kind, headers, udpOverTcp), Shadowsocks, kind)
  {
    hide Named, UdpOverTcpFields, ValidTransport;
    var node := ShadowsocksNode(kind, headers, udpOverTcp);
    assert "aes-128-gcm" in CIPHERS;
    assert AllShort(CredentialFields(node.credentials)) && AllShort([UdpField(false)]);
    AllShortAppend(UdpOverTcpFields(udpOverTcp), [UdpField(false)]);
    ExampleIsShort(node, kind, headers);
  }

  const OPTION_LIKE_HEADERS: Entries := [("udp_over_tcp_enabled", "true"), ("udp_over_tcp_version", "2")]

  const OPTION := Some(UdpOverTcp(true, 2))

  lemma DifferAfterPrefix(a: string, b: string, n: nat)
    requires n < |a| && n < |b| && a[..n] == b[..n] && a[n] < b[n]
    ensures Ordering.LexLess(a, b)
  {
    Ordering.LexLessCommonPrefix(a[..n], a[n..], b[n..]);
    assert a == a[..n] + a[n..] && b == b[..n] + b[n..];
  }

  lemma OptionLikeHeadersInOrder()
    ensures InKeyOrder(OPTION_LIKE_HEADERS)
  {
    hide Ordering.LexLess;
    DifferAfterPrefix(OPTION_LIKE_HEADERS[0].0, OPTION_LIKE_HEADERS[1].0, 13);
  }

  lemma OptionLikeHeaders()
    ensures Named(OPTION_LIKE_HEADERS) == UdpOverTcpFields(OPTION) && AllShort(UdpOverTcpFields(OPTION))
  {
    var headers := OPTION_LIKE_HEADERS;
    assert headers[1..] == [headers[1]] && headers[1..][1..] == [];
    assert Decimal.Text(2) == "2";
  }

  lemma OptionLikeTransport(kind: TransportKind)
    requires CarriesHeaders(kind)
    ensures ValidTransport(Over(kind, OPTION_LIKE_HEADERS)) && ValidTransport(Over(kind, []))
  {
    OptionLikeHeadersInOrder();
    assert InKeyOrder([]);
    hide InKeyOrder;
  }

  lemma OptionLikeTail(a: Node, b: Node)
    requires a.options == ShadowsocksOptions(None) && b.options == ShadowsocksOptions(OPTION) && a.udp == b.udp
    ensures Named(OPTION_LIKE_HEADERS) + Tail(a) == Named([]) + Tail(b)
  {
    OptionLikeHeaders();
    assert Named([]) == [] && UdpOverTcpFields(None) == [];
    hide Named, UdpOverTcpFields;
  }

  /** One Shadowsocks node has two headers where the other has the option of the same names. */
  lemma ShadowsocksAmbiguous(kind: TransportKind)
    requires CarriesHeaders(kind)
    ensures !Identifies(Shadowsocks, kind)
  {
    assert Named([]) == [] && UdpOverTcpFields(None) == [];
    hide NodeFields, Bytes, Valid, Named, Tail, UdpOverTcpFields, ValidTransport, TransportFields;
    var a := ShadowsocksNode(kind, OPTION_LIKE_HEADERS, None);
    var b := ShadowsocksNode(kind, [], OPTION);
    OptionLikeHeaders();
    OptionLikeTransport(kind);
    ShadowsocksExample(kind, OPTION_LIKE_HEADERS, None);
    ShadowsocksExample(kind, [], OPTION);
    OptionLikeTail(a, b);
    HeadersThenTail(kind, a, b, OPTION_LIKE_HEADERS, []);
    TwinsShareFields(a, b);
    assert Member(a, Shadowsocks, kind) && Member(b, Shadowsocks, kind) && !SameConnection(a, b);
  }

  lemma HttpExample(kind: TransportKind, headers: Entries, path: string, httpHeaders: Entries)
    requires CarriesHeaders(kind) && ValidTransport(Over(kind, headers)) && AllShort(Named(headers))
    requires 0 < |path| < U32_SIZE && InKeyOrder(httpHeaders) && AllShort(Named(httpHeaders))
    ensures Member(HttpNode(kind, headers, path, httpHeaders), Http, kind)
  {
    hide Named, ValidTransport, InKeyOrder;
    var node := HttpNode(kind, headers, path, httpHeaders);
    assert AllShort(CredentialFields(node.credentials)) && AllShort([UdpField(false)]);
    AllShortAppend([Field("http_path", path)], Named(httpHeaders));
    AllShortAppend(OptionFields(node.options), [UdpField(false)]);
    ExampleIsShort(node, kind, headers);
  }

  /** One HTTP node has as a header of its transport what the other has as a header of its protocol. */
  lemma HttpAmbiguous(kind: TransportKind)
    requires CarriesHeaders(kind)
    ensures !Identifies(Http, kind)
  {
    hide NodeFields, Bytes, Valid, KindText;
    var first, second := [("http_path", "/a")], [("http_path", "/b")];
    var a := HttpNode(kind, first, "/b", []);
    var b := HttpNode(kind, [], "/a", second);
    assert first[1..] == [] && second[1..] == [];
    assert Named(first) == [Field("http_path", "/a")] && Named(second) == [Field("http_path", "/b")];
    assert ValidTransport(Over(kind, first)) && ValidTransport(Over(kind, [])) && InKeyOrder(second);
    assert AllShort(Named(first)) && AllShort(Named([])) && AllShort(Named(second));
    HttpExample(kind, first, "/b", []);
    HttpExample(kind, [], "/a", second);
    assert Named(first) + Tail(a) == Named([]) + Tail(b);
    HeadersThenTail(kind, a, b, first, []);
    TwinsShareFields(a, b);
    assert !SameConnection(a, b);
  }

  /**
   * Exactly which protocols and transports the canonical bytes would identify connections for if a capability
   * matrix supported them all: all but Shadowsocks and HTTP over the two transports that carry headers.
   */
  lemma IdentifiesExactly(protocol: Protocol, kind: TransportKind)
    ensures Identifies(protocol, kind) <==> !(CarriesHeaders(kind) && protocol in {Shadowsocks, Http})
  {
    hide Valid, CanonicalBytes, SameConnection, NodeFields, AllShort;
    if CarriesHeaders(kind) && protocol.Shadowsocks? {
      ShadowsocksAmbiguous(kind);
    } else if CarriesHeaders(kind) && protocol.Http? {
      HttpAmbiguous(kind);
    } else {
      forall a: Node, b: Node | Member(a, protocol, kind) && Member(b, protocol, kind)
        ensures CanonicalBytes(a) == CanonicalBytes(b) <==> SameConnection(a, b)
      {
        SameBytesExactly(a, b);
      }
    }
  }

  /** Nodes that differ in protocol or in kind of transport never share canonical bytes. */
  lemma SameBytesSameKind(a: Node, b: Node)
    requires Valid(a) && Valid(b) && AllShort(NodeFields(a)) && AllShort(NodeFields(b))
    requires CanonicalBytes(a) == CanonicalBytes(b)
    ensures a.protocol == b.protocol && a.transport.Kind() == b.transport.Kind()
  {
    BytesInjective(NodeFields(a), NodeFields(b));
    FrontOfNode(a, b);
  }
}
