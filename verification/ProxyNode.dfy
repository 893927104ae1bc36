/** Proxy nodes and the lists of named fields they are identified by. */
module ProxyNode {
  import opened Wrappers
  import Decimal
  import Ordering

  datatype Protocol = Vless | Vmess | Shadowsocks | Trojan | Hysteria2 | Tuic | AnyTls | Http | Socks

  datatype Plugin = Plugin(name: string, options: Entries)

  datatype Obfs = Obfs(kind: string, password: string)

  /** A `BTreeMap` of texts, in key order. */
  type Entries = seq<(string, string)>

  datatype UdpOverTcp = UdpOverTcp(enabled: bool, version: nat)

  datatype Credentials =
    | ForVless(uuid: string)
    | ForVmess(uuid: string, alterId: nat, security: string)
    | ForShadowsocks(cipher: string, password: string, plugin: Option<Plugin>)
    | ForTrojan(password: string)
    | ForHysteria2(password: string, obfs: Option<Obfs>)
    | ForTuic(uuid: string, password: string)
    | ForAnyTls(password: string)
    | ForHttp(login: Option<string>, secret: Option<string>)
    | ForSocks(login: Option<string>, secret: Option<string>)
  {
    function Protocol(): Protocol {
      match this
      case ForVless(_) => Vless
      case ForVmess(_, _, _) => Vmess
      case ForShadowsocks(_, _, _) => Shadowsocks
      case ForTrojan(_) => Trojan
      case ForHysteria2(_, _) => Hysteria2
      case ForTuic(_, _) => Tuic
      case ForAnyTls(_) => AnyTls
      case ForHttp(_, _) => Http
      case ForSocks(_, _) => Socks
    }
  }

  datatype Reality = Reality(publicKey: string, shortId: Option<string>, fingerprint: Option<string>)

  datatype Tls = Tls(
    enabled: bool,
    insecure: bool,
    serverName: Option<string>,
    alpn: seq<string>,
    clientFingerprint: Option<string>,
    reality: Option<Reality>)

  datatype TransportKind = OnTcp | OnWebSocket | OnHttp | OnHttpUpgrade | OnGrpc | OnQuic

  datatype Transport =
    | Tcp
    | WebSocket(path: string, headers: Entries)
    | HttpTransport(path: string, hosts: seq<string>)
    | HttpUpgrade(path: string, headers: Entries)
    | Grpc(serviceName: string)
    | Quic
  {
    function Kind(): TransportKind {
      match this
      case Tcp => OnTcp
      case WebSocket(_, _) => OnWebSocket
      case HttpTransport(_, _) => OnHttp
      case HttpUpgrade(_, _) => OnHttpUpgrade
      case Grpc(_) => OnGrpc
      case Quic => OnQuic
    }
  }

  datatype Options =
    | NoOptions
    | VlessOptions(flow: Option<string>)
    | ShadowsocksOptions(udpOverTcp: Option<UdpOverTcp>)
    | HysteriaOptions(serverPorts: seq<string>, hopInterval: Option<string>, up: Option<nat>, down: Option<nat>)
    | TuicOptions(
        congestion: Option<string>,
        relayMode: Option<string>,
        overStream: bool,
        zeroRtt: bool,
        heartbeat: Option<string>)
    | AnyTlsOptions(checkInterval: Option<string>, timeout: Option<string>, minIdle: Option<nat>)
    | HttpOptions(httpPath: Option<string>, httpHeaders: Entries)
    | SocksOptions(socksVersion: string, udpOverTcp: Option<UdpOverTcp>)
  {
    /** The block of options that goes with a protocol. */
    predicate Fits(protocol: Protocol) {
      match protocol
      case Vless => VlessOptions?
      case Shadowsocks => ShadowsocksOptions?
      case Hysteria2 => HysteriaOptions?
      case Tuic => TuicOptions?
      case AnyTls => AnyTlsOptions?
      case Http => HttpOptions?
      case Socks => SocksOptions?
      case _ => NoOptions?
    }
  }

  datatype Node = Node(
    protocol: Protocol,
    server: string,
    port: nat,
    credentials: Credentials,
    tls: Tls,
    transport: Transport,
    options: Options,
    udp: bool)

  predicate Bounded(text: Option<string>) {
    text.Some? ==> text.value != ""
  }


  predicate BoundedOptions(options: Options) {
    match options
    case VlessOptions(flow) => Bounded(flow)
    case HysteriaOptions(_, hop, _, _) => Bounded(hop)
    case TuicOptions(congestion, relay, _, _, heartbeat) => Bounded(congestion) && Bounded(relay) && Bounded(heartbeat)
    case AnyTlsOptions(check, timeout, _) => Bounded(check) && Bounded(timeout)
    case HttpOptions(path, _) => Bounded(path)
    case _ => true
  }

  /** The parts belong together, and a bounded text that is present is not empty. */
  predicate Shaped(node: Node) {
    && node.credentials.Protocol() == node.protocol
    && node.options.Fits(node.protocol)
    && (node.protocol in {Hysteria2, Tuic} ==> node.transport.Quic?)
    && (node.credentials.ForShadowsocks? && node.credentials.plugin.Some? ==> node.credentials.plugin.value.name != "")
    && Bounded(node.tls.serverName)
    && Bounded(node.tls.clientFingerprint)
    && (node.tls.reality.Some? ==> Bounded(node.tls.reality.value.fingerprint))
    && BoundedOptions(node.options)
  }

  predicate InKeyOrder(entries: Entries) {
    forall i :: 0 <= i < |entries| - 1 ==> Ordering.LexLess(entries[i].0, entries[i + 1].0)
  }

  predicate KeysAmong(entries: Entries, keys: set<string>) {
    forall i :: 0 <= i < |entries| ==> entries[i].0 in keys
  }

  predicate ValidPlugin(plugin: Plugin) {
    && InKeyOrder(plugin.options)
    && match plugin.name
       case "obfs-local" =>
         KeysAmong(plugin.options, {"obfs", "obfs-host"})
         && (("obfs", "http") in plugin.options || ("obfs", "tls") in plugin.options)
       case "v2ray-plugin" =>
         KeysAmong(plugin.options, {"mode", "host", "path", "tls", "mux"})
         && (("mode", "websocket") in plugin.options || ("mode", "quic") in plugin.options)
       case _ => false
  }

  const CIPHERS := {
    "aes-128-gcm", "aes-256-gcm", "chacha20-ietf-poly1305",
    "2022-blake3-aes-128-gcm", "2022-blake3-aes-256-gcm", "2022-blake3-chacha20-poly1305"}

  const VMESS_SECURITIES := {"auto", "none", "aes-128-gcm", "chacha20-poly1305", "zero"}

  predicate ValidCredentials(c: Credentials) {
    match c
    case ForShadowsocks(cipher, password, plugin) =>
      password != "" && cipher in CIPHERS && (plugin.Some? ==> ValidPlugin(plugin.value))
    case ForVmess(_, _, security) => security in VMESS_SECURITIES
    case ForTrojan(password) => password != ""
    case ForHysteria2(password, _) => password != ""
    case ForTuic(_, password) => password != ""
    case ForAnyTls(password) => password != ""
    case _ => true
  }

  predicate ValidTransport(t: Transport) {
    match t
    case WebSocket(path, headers) =>
      path != "" && InKeyOrder(headers) && forall i :: 0 <= i < |headers| ==> headers[i].1 != ""
    case HttpUpgrade(path, headers) =>
      path != "" && InKeyOrder(headers) && forall i :: 0 <= i < |headers| ==> headers[i].1 != ""
    case HttpTransport(path, hosts) => path != "" && "" !in hosts
    case Grpc(serviceName) => serviceName != ""
    case _ => true
  }

  /** What `ProxyNode::validate` and the types it is built from guarantee under any capability matrix. */
  predicate Valid(node: Node) {
    && Shaped(node)
    && node.server != "" && 0 < node.port < 0x1_0000
    && ValidCredentials(node.credentials)
    && ValidTransport(node.transport)
    && (node.options.HttpOptions? ==> InKeyOrder(node.options.httpHeaders))
    && (node.transport.Quic? ==> node.tls.enabled)
    && (node.protocol in {Trojan, AnyTls} ==> node.tls.enabled)
    && (node.tls.reality.Some? ==> node.protocol.Vless? && node.tls.enabled)
  }

  /** The transports that the built-in capability matrix supports for a protocol. */
  function SupportedTransports(protocol: Protocol): set<TransportKind> {
    match protocol
    case Vless => {OnTcp, OnWebSocket, OnHttp, OnHttpUpgrade, OnGrpc}
    case Vmess => {OnTcp, OnWebSocket, OnHttp, OnHttpUpgrade, OnGrpc}
    case Trojan => {OnTcp, OnWebSocket, OnGrpc}
    case Hysteria2 => {OnQuic}
    case Tuic => {OnQuic}
    case _ => {OnTcp}
  }

  /** A node that validation with the built-in matrix can let through. */
  predicate Accepted(node: Node) {
    Valid(node) && node.transport.Kind() in SupportedTransports(node.protocol)
  }

  // ---- The fields a node is written as ----

  datatype Field = Field(name: string, value: string)

  function OrEmpty(text: Option<string>): string {
    if text.Some? then text.value else ""
  }

  function OrZero(number: Option<nat>): nat {
    if number.Some? then number.value else 0
  }

  function Bit(flag: bool): string {
    if flag then "1" else "0"
  }

  function Truth(flag: bool): string {
    if flag then "true" else "false"
  }

  function ProtocolText(protocol: Protocol): string {
    match protocol
    case Vless => "vless"
    case Vmess => "vmess"
    case Shadowsocks => "shadowsocks"
    case Trojan => "trojan"
    case Hysteria2 => "hysteria2"
    case Tuic => "tuic"
    case AnyTls => "anytls"
    case Http => "http"
    case Socks => "socks"
  }

  function KindText(kind: TransportKind): string {
    match kind
    case OnTcp => "Tcp"
    case OnWebSocket => "WebSocket"
    case OnHttp => "Http"
    case OnHttpUpgrade => "HttpUpgrade"
    case OnGrpc => "Grpc"
    case OnQuic => "Quic"
  }

  function Joined(options: Entries): string {
    if options == [] then ""
    else if |options| == 1 then options[0].0 + "=" + options[0].1
    else options[0].0 + "=" + options[0].1 + ";" + Joined(options[1..])
  }

  function Repeated(name: string, values: seq<string>): seq<Field> {
    if values == [] then [] else [Field(name, values[0])] + Repeated(name, values[1..])
  }

  function Named(entries: Entries): seq<Field> {
    if entries == [] then [] else [Field(entries[0].0, entries[0].1)] + Named(entries[1..])
  }

  function CredentialFields(c: Credentials): seq<Field> {
    match c
    case ForVless(uuid) => [Field("uuid", uuid)]
    case ForVmess(uuid, alterId, security) =>
      [Field("uuid", uuid), Field("alter_id", Decimal.Text(alterId)), Field("security", security)]
    case ForShadowsocks(cipher, password, plugin) =>
      [Field("method", cipher), Field("password", password)]
      + (match plugin
         case None => [Field("plugin", "")]
         case Some(p) => [Field("plugin", p.name), Field("plugin_opts", Joined(p.options))])
    case ForTrojan(password) => [Field("password", password)]
    case ForHysteria2(password, obfs) =>
      [Field("password", password)]
      + (match obfs
         case None => []
         case Some(o) => [Field("obfs", o.kind), Field("obfs_password", o.password)])
    case ForTuic(uuid, password) => [Field("uuid", uuid), Field("password", password)]
    case ForAnyTls(password) => [Field("password", password)]
    case ForHttp(login, secret) => [Field("username", OrEmpty(login)), Field("password", OrEmpty(secret))]
    case ForSocks(login, secret) => [Field("username", OrEmpty(login)), Field("password", OrEmpty(secret))]
  }

  function RealityFields(reality: Option<Reality>): seq<Field> {
    match reality
    case None => []
    case Some(r) =>
      [Field("reality_public", r.publicKey), Field("reality_short", OrEmpty(r.shortId)),
       Field("reality_fp", OrEmpty(r.fingerprint))]
  }

  function TlsFields(tls: Tls): seq<Field> {
    [Field("tls", Bit(tls.enabled)), Field("insecure", Bit(tls.insecure)), Field("sni", OrEmpty(tls.serverName))]
    + (Repeated("alpn", tls.alpn)
       + ([Field("utls", OrEmpty(tls.clientFingerprint))] + RealityFields(tls.reality)))
  }

  function TransportFields(t: Transport): seq<Field> {
    [Field("transport", KindText(t.Kind()))]
    + (match t
       case Tcp => []
       case Quic => []
       case WebSocket(path, headers) => [Field("path", path)] + Named(headers)
       case HttpUpgrade(path, headers) => [Field("path", path)] + Named(headers)
       case HttpTransport(path, hosts) => [Field("path", path)] + Repeated("host", hosts)
       case Grpc(serviceName) => [Field("service", serviceName)])
  }

  function UdpOverTcpFields(options: Option<UdpOverTcp>): seq<Field> {
    match options
    case None => []
    case Some(o) =>
      [Field("udp_over_tcp_enabled", Truth(o.enabled)), Field("udp_over_tcp_version", Decimal.Text(o.version))]
  }

  function OptionFields(options: Options): seq<Field> {
    match options
    case NoOptions => []
    case VlessOptions(flow) => [Field("flow", OrEmpty(flow))]
    case ShadowsocksOptions(udpOverTcp) => UdpOverTcpFields(udpOverTcp)
    case HysteriaOptions(serverPorts, hop, up, down) =>
      Repeated("server_port", serverPorts)
      + [Field("hop_interval", OrEmpty(hop)), Field("up_mbps", Decimal.Text(OrZero(up))),
         Field("down_mbps", Decimal.Text(OrZero(down)))]
    case TuicOptions(congestion, relay, overStream, zeroRtt, heartbeat) =>
      [Field("congestion_control", OrEmpty(congestion)), Field("udp_relay_mode", OrEmpty(relay)),
       Field("udp_over_stream", Truth(overStream)), Field("zero_rtt_handshake", Truth(zeroRtt)),
       Field("heartbeat", OrEmpty(heartbeat))]
    case AnyTlsOptions(check, timeout, minIdle) =>
      [Field("idle_session_check_interval", OrEmpty(check)), Field("idle_session_timeout", OrEmpty(timeout)),
       Field("min_idle_session", Decimal.Text(OrZero(minIdle)))]
    case HttpOptions(path, headers) => [Field("http_path", OrEmpty(path))] + Named(headers)
    case SocksOptions(version, udpOverTcp) => [Field("socks_version", version)] + UdpOverTcpFields(udpOverTcp)
  }

  function UdpField(udp: bool): Field {
    Field("udp", Bit(udp))
  }

  function NodeFields(node: Node): seq<Field> {
    [Field("schema", "1"), Field("protocol", ProtocolText(node.protocol)), Field("server", node.server),
     Field("port", Decimal.Text(node.port))]
    + (CredentialFields(node.credentials)
       + (TlsFields(node.tls)
          + (TransportFields(node.transport) + (OptionFields(node.options) + [UdpField(node.udp)]))))
  }

  // ---- What it means for two nodes to be the same connection ----

  predicate SamePlugin(a: Option<Plugin>, b: Option<Plugin>) {
    a.Some? == b.Some?
    && (a.Some? ==> a.value.name == b.value.name && Joined(a.value.options) == Joined(b.value.options))
  }

  predicate SameCredentials(a: Credentials, b: Credentials) {
    match a
    case ForShadowsocks(cipher, password, plugin) =>
      b.ForShadowsocks? && cipher == b.cipher && password == b.password && SamePlugin(plugin, b.plugin)
    case ForHttp(login, secret) =>
      b.ForHttp? && OrEmpty(login) == OrEmpty(b.login) && OrEmpty(secret) == OrEmpty(b.secret)
    case ForSocks(login, secret) =>
      b.ForSocks? && OrEmpty(login) == OrEmpty(b.login) && OrEmpty(secret) == OrEmpty(b.secret)
    case _ => a == b
  }

  predicate SameReality(a: Option<Reality>, b: Option<Reality>) {
    a.Some? == b.Some?
    && (a.Some? ==>
          && a.value.publicKey == b.value.publicKey && a.value.fingerprint == b.value.fingerprint
          && OrEmpty(a.value.shortId) == OrEmpty(b.value.shortId))
  }

  predicate SameTls(a: Tls, b: Tls) {
    && a.enabled == b.enabled && a.insecure == b.insecure && a.serverName == b.serverName
    && a.alpn == b.alpn && a.clientFingerprint == b.clientFingerprint && SameReality(a.reality, b.reality)
  }

  predicate SameOptions(a: Options, b: Options) {
    match a
    case HysteriaOptions(ports, hop, up, down) =>
      && b.HysteriaOptions? && ports == b.serverPorts && hop == b.hopInterval
      && OrZero(up) == OrZero(b.up) && OrZero(down) == OrZero(b.down)
    case AnyTlsOptions(check, timeout, minIdle) =>
      && b.AnyTlsOptions? && check == b.checkInterval && timeout == b.timeout && OrZero(minIdle) == OrZero(b.minIdle)
    case _ => a == b
  }

  /**
   * The nodes agree on everything that affects the connection.  An absent number counts as zero, an absent
   * secret as an empty one, and plugin options as the one text they are joined into.
   */
  predicate SameConnection(a: Node, b: Node) {
    && a.protocol == b.protocol && a.server == b.server && a.port == b.port
    && SameCredentials(a.credentials, b.credentials)
    && SameTls(a.tls, b.tls)
    && a.transport == b.transport
    && SameOptions(a.options, b.options)
    && a.udp == b.udp
  }

  // ---- The same, by a normal form ----

  function PlainPlugin(plugin: Option<Plugin>): Option<Plugin> {
    match plugin
    case None => None
    case Some(p) => Some(Plugin(p.name, [("", Joined(p.options))]))
  }

  function PlainCredentials(c: Credentials): Credentials {
    match c
    case ForShadowsocks(cipher, password, plugin) => ForShadowsocks(cipher, password, PlainPlugin(plugin))
    case ForHttp(login, secret) => ForHttp(Some(OrEmpty(login)), Some(OrEmpty(secret)))
    case ForSocks(login, secret) => ForSocks(Some(OrEmpty(login)), Some(OrEmpty(secret)))
    case _ => c
  }

  function PlainReality(reality: Option<Reality>): Option<Reality> {
    match reality
    case None => None
    case Some(r) => Some(r.(shortId := Some(OrEmpty(r.shortId))))
  }

  function PlainOptions(options: Options): Options {
    match options
    case HysteriaOptions(ports, hop, up, down) => HysteriaOptions(ports, hop, Some(OrZero(up)), Some(OrZero(down)))
    case AnyTlsOptions(check, timeout, minIdle) => AnyTlsOptions(check, timeout, Some(OrZero(minIdle)))
    case _ => options
  }

  /** A node with everything written out that may be left out. */
  function Plain(node: Node): Node {
    node.(
      credentials := PlainCredentials(node.credentials),
      tls := node.tls.(reality := PlainReality(node.tls.reality)),
      options := PlainOptions(node.options))
  }

  /** Nothing else is disregarded: two nodes are the same connection exactly if they are equal once written out. */
  lemma SameConnectionIsPlain(a: Node, b: Node)
    ensures SameConnection(a, b) <==> Plain(a) == Plain(b)
  {
    SameCredentialsIsPlain(a.credentials, b.credentials);
    SameOptionsIsPlain(a.options, b.options);
    hide SameCredentials, SameOptions, PlainCredentials, PlainOptions;
  }

  lemma SameCredentialsIsPlain(a: Credentials, b: Credentials)
    ensures SameCredentials(a, b) <==> PlainCredentials(a) == PlainCredentials(b)
  {
    hide Joined;
    if a.ForShadowsocks? && b.ForShadowsocks? && a.plugin.Some? && b.plugin.Some? {
      var x, y := Joined(a.plugin.value.options), Joined(b.plugin.value.options);
      if [("", x)] == [("", y)] {
        assert [("", x)][0].1 == [("", y)][0].1;
      }
    }
  }

  lemma SameOptionsIsPlain(a: Options, b: Options)
    ensures SameOptions(a, b) <==> PlainOptions(a) == PlainOptions(b)
  {
  }
}
