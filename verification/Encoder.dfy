/** The encoder as it runs, field by field onto the end of a byte buffer. */
module Encoder {
  import opened Wrappers
  import opened ProxyNode
  import opened Canonical
  import opened Sequences
  import Decimal

  /** `before` with the fields `added` written after it. */
  ghost predicate Extends(out: string, before: string, added: seq<Field>) {
    out == before + Bytes(added)
  }

  lemma ExtendsNothing(out: string)
    ensures Extends(out, out, [])
  {
    assert out + "" == out;
  }

  lemma ExtendsOn(out: string, middle: string, before: string, first: seq<Field>, second: seq<Field>)
    requires Extends(middle, before, first) && Extends(out, middle, second)
    ensures Extends(out, before, first + second)
  {
    BytesAppend(first, second);
    Regroup(before, Bytes(first), Bytes(second));
  }

  method PutField(before: string, name: string, value: string) returns (out: string)
    ensures Extends(out, before, [Field(name, value)])
  {
    out := before;
    out := out + BigEndian(|name|);
    out := out + name;
    out := out + BigEndian(|value|);
    out := out + value;
    ghost var f := Field(name, value);
    assert out == before + FieldBytes(f);
    assert Bytes([f]) == FieldBytes(f) + Bytes([]);
    assert FieldBytes(f) + "" == FieldBytes(f);
  }

  /** Several fields, one after another. */
  method PutFields(before: string, fields: seq<Field>) returns (out: string)
    ensures Extends(out, before, fields)
  {
    hide Extends;
    out := before;
    ExtendsNothing(before);
    for i := 0 to |fields|
      invariant Extends(out, before, fields[..i])
    {
      var next := PutField(out, fields[i].name, fields[i].value);
      ExtendsOn(next, out, before, fields[..i], [fields[i]]);
      assert fields[..i + 1] == fields[..i] + [fields[i]];
      out := next;
    }
    assert fields[..|fields|] == fields;
  }

  lemma {:induction false} RepeatedAppend(name: string, a: seq<string>, value: string)
    ensures Repeated(name, a + [value]) == Repeated(name, a) + [Field(name, value)]
  {
    if a == [] {
      assert ([] + [value])[1..] == [] && a + [value] == [value];
    } else {
      RepeatedAppend(name, a[1..], value);
      assert (a + [value])[1..] == a[1..] + [value];
    }
  }

  lemma {:induction false} NamedAppend(a: Entries, entry: (string, string))
    ensures Named(a + [entry]) == Named(a) + [Field(entry.0, entry.1)]
  {
    if a == [] {
      assert ([] + [entry])[1..] == [] && a + [entry] == [entry];
    } else {
      NamedAppend(a[1..], entry);
      assert (a + [entry])[1..] == a[1..] + [entry];
    }
  }

  method PutRepeated(before: string, name: string, values: seq<string>) returns (out: string)
    ensures Extends(out, before, Repeated(name, values))
  {
    hide Extends;
    out := before;
    ExtendsNothing(before);
    for i := 0 to |values|
      invariant Extends(out, before, Repeated(name, values[..i]))
    {
      var next := PutField(out, name, values[i]);
      ExtendsOn(next, out, before, Repeated(name, values[..i]), [Field(name, values[i])]);
      RepeatedAppend(name, values[..i], values[i]);
      assert values[..i + 1] == values[..i] + [values[i]];
      out := next;
    }
    assert values[..|values|] == values;
  }

  method PutEntries(before: string, entries: Entries) returns (out: string)
    ensures Extends(out, before, Named(entries))
  {
    hide Extends;
    out := before;
    ExtendsNothing(before);
    for i := 0 to |entries|
      invariant Extends(out, before, Named(entries[..i]))
    {
      var next := PutField(out, entries[i].0, entries[i].1);
      ExtendsOn(next, out, before, Named(entries[..i]), [Field(entries[i].0, entries[i].1)]);
      NamedAppend(entries[..i], entries[i]);
      assert entries[..i + 1] == entries[..i] + [entries[i]];
      out := next;
    }
    assert entries[..|entries|] == entries;
  }

  method EncodeCredentials(before: string, c: Credentials) returns (out: string)
    ensures Extends(out, before, CredentialFields(c))
  {
    hide Extends;
    match c {
      case ForVless(uuid) => out := PutField(before, "uuid", uuid);
      case ForVmess(uuid, alterId, security) =>
        out := PutFields(
          before, [Field("uuid", uuid), Field("alter_id", Decimal.Text(alterId)), Field("security", security)]);
      case ForShadowsocks(cipher, password, plugin) =>
        var keyed := PutFields(before, [Field("method", cipher), Field("password", password)]);
        match plugin {
          case None => out := PutField(keyed, "plugin", "");
          case Some(p) =>
            out := PutFields(keyed, [Field("plugin", p.name), Field("plugin_opts", Joined(p.options))]);
        }
        ExtendsOn(out, keyed, before, CredentialFields(c)[..2], CredentialFields(c)[2..]);
        assert CredentialFields(c) == CredentialFields(c)[..2] + CredentialFields(c)[2..];
      case ForTrojan(password) => out := PutField(before, "password", password);
      case ForAnyTls(password) => out := PutField(before, "password", password);
      case ForHysteria2(password, obfs) =>
        out := PutField(before, "password", password);
        if obfs.Some? {
          var keyed := out;
          out := PutFields(keyed, [Field("obfs", obfs.value.kind), Field("obfs_password", obfs.value.password)]);
          ExtendsOn(out, keyed, before, CredentialFields(c)[..1], CredentialFields(c)[1..]);
          assert CredentialFields(c) == CredentialFields(c)[..1] + CredentialFields(c)[1..];
        } else {
          assert CredentialFields(c) == [Field("password", password)];
        }
      case ForTuic(uuid, password) =>
        out := PutFields(before, [Field("uuid", uuid), Field("password", password)]);
      case ForHttp(login, secret) =>
        out := PutFields(before, [Field("username", OrEmpty(login)), Field("password", OrEmpty(secret))]);
      case ForSocks(login, secret) =>
        out := PutFields(before, [Field("username", OrEmpty(login)), Field("password", OrEmpty(secret))]);
    }
  }

  method EncodeTls(before: string, tls: Tls) returns (out: string)
    ensures Extends(out, before, TlsFields(tls))
  {
    var first := [Field("tls", Bit(tls.enabled)), Field("insecure", Bit(tls.insecure)),
                  Field("sni", OrEmpty(tls.serverName))];
    var utls := [Field("utls", OrEmpty(tls.clientFingerprint))];
    var flagged := PutFields(before, first);
    var negotiated := PutRepeated(flagged, "alpn", tls.alpn);
    var shaped := PutFields(negotiated, utls);
    out := shaped;
    if tls.reality.Some? {
      var r := tls.reality.value;
      out := PutFields(
        shaped, [Field("reality_public", r.publicKey), Field("reality_short", OrEmpty(r.shortId)),
                 Field("reality_fp", OrEmpty(r.fingerprint))]);
    } else {
      ExtendsNothing(shaped);
    }
    hide Extends, Repeated, RealityFields;
    ExtendsOn(out, shaped, negotiated, utls, RealityFields(tls.reality));
    ExtendsOn(out, negotiated, flagged, Repeated("alpn", tls.alpn), utls + RealityFields(tls.reality));
    ExtendsOn(out, flagged, before, first, Repeated("alpn", tls.alpn) + (utls + RealityFields(tls.reality)));
  }

  method EncodeTransport(before: string, t: Transport) returns (out: string)
    ensures Extends(out, before, TransportFields(t))
  {
    hide Extends, Named, Repeated, KindText;
    var kind := [Field("transport", KindText(t.Kind()))];
    var tagged := PutFields(before, kind);
    ghost var rest := TransportFields(t)[1..];
    match t {
      case Tcp =>
        out := tagged;
        ExtendsNothing(out);
      case Quic =>
        out := tagged;
        ExtendsNothing(out);
      case WebSocket(path, headers) =>
        var placed := PutField(tagged, "path", path);
        out := PutEntries(placed, headers);
        ExtendsOn(out, placed, tagged, [Field("path", path)], Named(headers));
        assert rest == [Field("path", path)] + Named(headers);
      case HttpUpgrade(path, headers) =>
        var placed := PutField(tagged, "path", path);
        out := PutEntries(placed, headers);
        ExtendsOn(out, placed, tagged, [Field("path", path)], Named(headers));
        assert rest == [Field("path", path)] + Named(headers);
      case HttpTransport(path, hosts) =>
        var placed := PutField(tagged, "path", path);
        out := PutRepeated(placed, "host", hosts);
        ExtendsOn(out, placed, tagged, [Field("path", path)], Repeated("host", hosts));
        assert rest == [Field("path", path)] + Repeated("host", hosts);
      case Grpc(serviceName) => out := PutField(tagged, "service", serviceName);
    }
    ExtendsOn(out, tagged, before, kind, rest);
    assert TransportFields(t) == kind + rest;
  }

  method EncodeOptions(before: string, options: Options) returns (out: string)
    ensures Extends(out, before, OptionFields(options))
  {
    hide Extends, Named, Repeated;
    match options {
      case NoOptions =>
        out := before;
        ExtendsNothing(out);
      case VlessOptions(flow) => out := PutField(before, "flow", OrEmpty(flow));
      case ShadowsocksOptions(udpOverTcp) => out := EncodeUdpOverTcp(before, udpOverTcp);
      case HysteriaOptions(serverPorts, hop, up, down) =>
        var ranged := PutRepeated(before, "server_port", serverPorts);
        var rates := [Field("hop_interval", OrEmpty(hop)), Field("up_mbps", Decimal.Text(OrZero(up))),
                      Field("down_mbps", Decimal.Text(OrZero(down)))];
        out := PutFields(ranged, rates);
        ExtendsOn(out, ranged, before, Repeated("server_port", serverPorts), rates);
      case TuicOptions(congestion, relay, overStream, zeroRtt, heartbeat) =>
        out := PutFields(
          before,
          [Field("congestion_control", OrEmpty(congestion)), Field("udp_relay_mode", OrEmpty(relay)),
           Field("udp_over_stream", Truth(overStream)), Field("zero_rtt_handshake", Truth(zeroRtt)),
           Field("heartbeat", OrEmpty(heartbeat))]);
      case AnyTlsOptions(check, timeout, minIdle) =>
        out := PutFields(
          before,
          [Field("idle_session_check_interval", OrEmpty(check)), Field("idle_session_timeout", OrEmpty(timeout)),
           Field("min_idle_session", Decimal.Text(OrZero(minIdle)))]);
      case HttpOptions(path, headers) =>
        var placed := PutField(before, "http_path", OrEmpty(path));
        out := PutEntries(placed, headers);
        ExtendsOn(out, placed, before, [Field("http_path", OrEmpty(path))], Named(headers));
      case SocksOptions(version, udpOverTcp) =>
        var versioned := PutField(before, "socks_version", version);
        out := EncodeUdpOverTcp(versioned, udpOverTcp);
        ExtendsOn(out, versioned, before, [Field("socks_version", version)], UdpOverTcpFields(udpOverTcp));
    }
  }

  method EncodeUdpOverTcp(before: string, options: Option<UdpOverTcp>) returns (out: string)
    ensures Extends(out, before, UdpOverTcpFields(options))
  {
    if options.None? {
      ExtendsNothing(before);
      return before;
    }
    out := PutFields(
      before,
      [Field("udp_over_tcp_enabled", Truth(options.value.enabled)),
       Field("udp_over_tcp_version", Decimal.Text(options.value.version))]);
  }

  /** `canonical_node_bytes` writes the node's fields, in order and nothing else. */
  method EncodeNode(node: Node) returns (out: string)
    ensures out == CanonicalBytes(node)
  {
    var head := [Field("schema", "1"), Field("protocol", ProtocolText(node.protocol)), Field("server", node.server),
                 Field("port", Decimal.Text(node.port))];
    var headed := PutFields("", head);
    var keyed := EncodeCredentials(headed, node.credentials);
    var secured := EncodeTls(keyed, node.tls);
    var carried := EncodeTransport(secured, node.transport);
    var tuned := EncodeOptions(carried, node.options);
    out := PutFields(tuned, [UdpField(node.udp)]);
    assert Extends(out, "", NodeFields(node)) by {
      hide Extends, CredentialFields, TlsFields, TransportFields, OptionFields;
      ExtendsOn(out, tuned, carried, OptionFields(node.options), [UdpField(node.udp)]);
      ExtendsOn(out, carried, secured, TransportFields(node.transport), Tail(node));
      ExtendsOn(out, secured, keyed, TlsFields(node.tls), TransportFields(node.transport) + Tail(node));
      ghost var rest := TlsFields(node.tls) + (TransportFields(node.transport) + Tail(node));
      ExtendsOn(out, keyed, headed, CredentialFields(node.credentials), rest);
      ExtendsOn(out, headed, "", head, CredentialFields(node.credentials) + rest);
    }
    assert "" + Bytes(NodeFields(node)) == Bytes(NodeFields(node));
  }
}
