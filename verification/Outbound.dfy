/**
 The proxy outbound of a server, protocol by protocol and transport by transport
 (src-tauri/src/xray.rs, the builders; src-tauri/src/subscription.rs, the server record).
 */
module Outbound {
  import opened Wrappers
  import opened Json
  import opened Text

  const PROXY_PROTOCOLS: set<string> :=
    {"http", "socks", "shadowsocks", "vmess", "vless", "trojan", "hysteria", "wireguard"}

  const TRANSPORTS: set<string> := {
    "", "raw", "tcp", "xhttp", "splithttp", "ws", "websocket", "grpc", "gun", "httpupgrade", "http", "h2", "h3", "kcp",
      "mkcp", "hysteria"}

  /** A location. `extra` is the JSON value that its raw parameter of that name parses to. */
  datatype Server = Server(
    protocol: string,
    uuid: string,
    password: Option<string>,
    cipher: Option<string>,
    host: string,
    port: nat,
    transport: string,
    security: string,
    sni: Option<string>,
    fingerprint: Option<string>,
    publicKey: Option<string>,
    shortId: Option<string>,
    flow: Option<string>,
    path: Option<string>,
    mode: Option<string>,
    rawParams: map<string, string>,
    extra: Option<Json>,
    rawOutbound: Option<Json>,
    rawProfile: Option<Json>)
  {
    function Param(key: string): Option<string> {
      Lookup(rawParams, key)
    }

    /** The raw parameter, unless it is empty. */
    function Given(key: string): Option<string> {
      Filled(Param(key))
    }
  }

  function Lookup(params: map<string, string>, key: string): Option<string> {
    if key in params then Some(params[key]) else None
  }

  function Filled(text: Option<string>): Option<string> {
    if text == Some("") then None else text
  }

  function Or(text: Option<string>, default: string): string {
    if text.Some? then text.value else default
  }

  /** One optional field. */
  function Field(key: string, value: Option<Json>): map<string, Json> {
    if value.Some? then map[key := value.value] else map[]
  }

  function StrField(key: string, value: Option<string>): map<string, Json> {
    if value.Some? then map[key := Str(value.value)] else map[]
  }

  function XrayNetwork(transport: string): string {
    var name := Lower(transport);
    if name == "xhttp" || name == "splithttp" then "xhttp"
    else if name == "ws" || name == "websocket" then "ws"
    else if name == "grpc" || name == "gun" then "grpc"
    else if name == "httpupgrade" then "httpupgrade"
    else if name == "http" || name == "h2" || name == "h3" then "http"
    else if name == "kcp" || name == "mkcp" then "kcp"
    else if name == "hysteria" then "hysteria"
    else "tcp"
  }

  function ServerName(s: Server): string {
    Or(Filled(s.sni), s.host)
  }

  function Fingerprint(s: Server): string {
    Or(Filled(s.fingerprint), "chrome")
  }

  function RealitySettings(s: Server): map<string, Json> {
    map["show" := Bool(false),
        "serverName" := Str(ServerName(s)),
        "fingerprint" := Str(Fingerprint(s)),
        "publicKey" := Str(Or(s.publicKey, "")),
        "shortId" := Str(Or(s.shortId, "")),
        "spiderX" := Str(Or(s.Param("spx"), "/"))]
  }

  function Alpn(s: Server): Option<Json> {
    match s.Given("alpn")
    case Some(list) => Some(Arr(Strings(SplitList(list))))
    case None => None
  }

  function TlsSettings(s: Server): map<string, Json> {
    map["serverName" := Str(ServerName(s)), "fingerprint" := Str(Fingerprint(s)), "allowInsecure" := Bool(false)]
    + Field("alpn", Alpn(s))
  }

  function SecurityFields(s: Server): map<string, Json> {
    if s.security == "reality" then map["security" := Str("reality"), "realitySettings" := Obj(RealitySettings(s))]
    else if s.security == "tls" then map["security" := Str("tls"), "tlsSettings" := Obj(TlsSettings(s))]
    else map["security" := Str("none")]
  }

  /** `entry(key).or_insert(default)`, unless the location has a value of its own. */
  function Override(fields: map<string, Json>, key: string, own: Option<string>, default: string): map<string, Json> {
    if own.Some? then fields[key := Str(own.value)]
    else if key in fields then fields
    else fields[key := Str(default)]
  }

  function XhttpSettings(s: Server): map<string, Json> {
    var extra := if s.extra.Some? && s.extra.value.Obj? then s.extra.value.fields else map[];
    Override(Override(extra, "path", s.path, "/"), "mode", s.mode, "auto") + StrField("host", s.Given("host"))
  }

  function WsSettings(s: Server): map<string, Json> {
    map["path" := Str(Or(s.path, "/"))]
    + Field("headers", match s.Given("host") case Some(host) => Some(Obj(map["Host" := Str(host)])) case None => None)
  }

  function HttpUpgradeSettings(s: Server): map<string, Json> {
    map["path" := Str(Or(s.path, "/"))] + StrField("host", s.Given("host"))
  }

  function GrpcSettings(s: Server): map<string, Json> {
    map["serviceName" := Str(Or(s.Param("serviceName"), "")),
        "multiMode" := Bool(s.mode == Some("multi") || s.mode == Some("gun"))]
    + StrField("authority", s.Given("authority"))
  }

  function HttpSettings(s: Server): map<string, Json> {
    map["path" := Str(Or(s.path, "/"))]
    + Field("host", match s.Given("host") case Some(host) => Some(Arr(Strings(SplitList(host)))) case None => None)
  }

  function KcpSettings(s: Server): map<string, Json> {
    map["header" := Obj(map["type" := Str(Or(s.Param("headerType"), "none"))])] + StrField("seed", s.Given("seed"))
  }

  function FakeHttpRequest(s: Server): map<string, Json> {
    Field("headers", match s.Given("host") case Some(host) => Some(Obj(map["Host" := Arr(Strings(SplitList(host)))]))
          case None => None)
    + Field("path", match s.path case Some(path) => Some(Arr(Strings(SplitList(path)))) case None => None)
  }

  /** The settings block of one transport. */
  function TransportFields(s: Server, network: string): map<string, Json> {
    if network == "xhttp" then map["xhttpSettings" := Obj(XhttpSettings(s))]
    else if network == "ws" then map["wsSettings" := Obj(WsSettings(s))]
    else if network == "httpupgrade" then map["httpupgradeSettings" := Obj(HttpUpgradeSettings(s))]
    else if network == "grpc" then map["grpcSettings" := Obj(GrpcSettings(s))]
    else if network == "http" then map["httpSettings" := Obj(HttpSettings(s))]
    else if network == "kcp" then map["kcpSettings" := Obj(KcpSettings(s))]
    else if network == "hysteria"
      then map["hysteriaSettings" := Obj(map["version" := Number(2), "auth" := Str(s.uuid)])]
    else if s.Param("headerType") == Some("http") then
      map["tcpSettings" := Obj(map["header" := Obj(map["type" := Str("http"), "request" := Obj(FakeHttpRequest(s))])])]
    else map[]
  }

  function StreamSettings(s: Server): map<string, Json> {
    var network := XrayNetwork(s.transport);
    map["network" := Str(network)] + SecurityFields(s) + TransportFields(s, network)
  }

  predicate IsBracket(c: char) {
    c == '[' || c == ']'
  }

  function TrimBrackets(s: string): string
    decreases |s|
  {
    if s == "" then s
    else if IsBracket(s[0]) then TrimBrackets(s[1..])
    else if IsBracket(s[|s| - 1]) then TrimBrackets(s[..|s| - 1])
    else s
  }

  function EndpointText(host: string, port: nat): string {
    var bare := TrimBrackets(host);
    (if ':' in bare then "[" + bare + "]" else bare) + ":" + Decimal(port)
  }

  function ListField(key: string, list: Option<string>): map<string, Json> {
    if list.Some? && SplitList(list.value) != [] then map[key := Arr(Strings(SplitList(list.value)))] else map[]
  }

  function NumberField(key: string, text: Option<string>): map<string, Json> {
    if text.Some? && ParseBelow(text.value, 0x1_0000_0000).Some?
    then map[key := Number(ParseBelow(text.value, 0x1_0000_0000).value)] else map[]
  }

  /** The byte a piece stands for, if it does. */
  function ByteOf(piece: Option<nat>): (r: seq<Json>)
    ensures forall i | 0 <= i < |r| :: r[i].Number?
  {
    match piece case Some(n) => [Number(n)] case None => []
  }

  function Bytes(pieces: seq<string>): (r: seq<Json>)
    ensures forall i | 0 <= i < |r| :: r[i].Number?
  {
    if pieces == [] then [] else ByteOf(ParseBelow(Trim(pieces[0]), 0x100)) + Bytes(pieces[1..])
  }

  function ReservedField(text: Option<string>): map<string, Json> {
    if text.Some? && Bytes(SplitOn(text.value, ',')) != [] then map["reserved" := Arr(Bytes(SplitOn(text.value, ',')))]
      else map[]
  }

  function WireGuardPeer(s: Server): map<string, Json> {
    map["endpoint" := Str(EndpointText(s.host, s.port)), "publicKey" := Str(Or(s.publicKey, ""))]
    + StrField("preSharedKey", s.Given("preSharedKey"))
    + ListField("allowedIPs", s.Param("allowedIPs"))
    + NumberField("keepAlive", s.Param("keepAlive"))
  }

  /** The fields a WireGuard outbound always has. */
  function WireGuardHead(s: Server): map<string, Json> {
    map["secretKey" := Str(s.uuid),
        "address" := Arr([Str("10.0.0.1/32")]),
        "peers" := Arr([Obj(WireGuardPeer(s))]),
        "noKernelTun" := Bool(true),
        "domainStrategy" := Str(Or(s.Param("domainStrategy"), "ForceIP"))]
  }

  function WireGuardSettings(s: Server): map<string, Json> {
    WireGuardHead(s)
    + ListField("address", s.Param("localAddress"))
    + NumberField("mtu", s.Param("mtu"))
    + ReservedField(s.Param("reserved"))
  }

  function Tagged(protocol: string, settings: map<string, Json>): map<string, Json> {
    map["tag" := Str("proxy"), "protocol" := Str(protocol), "settings" := Obj(settings)]
  }

  function Streamed(protocol: string, settings: map<string, Json>, s: Server): Json {
    Obj(Tagged(protocol, settings)["streamSettings" := Obj(StreamSettings(s))])
  }

  function Endpoint(s: Server): map<string, Json> {
    map["address" := Str(s.host), "port" := Number(s.port)]
  }

  function OneOf(key: string, entry: map<string, Json>): map<string, Json> {
    map[key := Arr([Obj(entry)])]
  }

  function AlterId(s: Server): nat {
    match s.Param("aid")
    case Some(text) => if ParseBelow(text, 0x1_0000_0000).Some? then ParseBelow(text, 0x1_0000_0000).value else 0
    case None => 0
  }

  function VmessUser(s: Server): map<string, Json> {
    map["id" := Str(s.uuid), "security" := Str(Or(s.Param("scy"), "auto")), "alterId" := Number(AlterId(s))]
  }

  function VlessUser(s: Server): map<string, Json> {
    map["id" := Str(s.uuid), "encryption" := Str("none"), "flow" := Str(Or(s.flow, ""))]
  }

  function TrojanServer(s: Server): map<string, Json> {
    Endpoint(s)["password" := Str(Or(s.password, s.uuid))]["flow" := Str(Or(s.flow, ""))]
  }

  function ShadowsocksServer(s: Server): map<string, Json> {
    Endpoint(s)["method" := Str(Or(s.cipher, ""))]["password" := Str(Or(s.password, ""))]["uot" := Bool(true)]
  }

  function SimpleSettings(s: Server): map<string, Json> {
    Endpoint(s) + StrField("user", Filled(Some(s.uuid))) + StrField("pass", Filled(s.password))
  }

  /** The protocol an outbound is built for: what is not recognised to the letter becomes vless. */
  function Kind(s: Server): string {
    if s.protocol in {"wireguard", "vmess", "trojan", "shadowsocks", "hysteria", "http", "socks"} then s.protocol
      else "vless"
  }

  function ProxySettings(s: Server): map<string, Json> {
    if s.protocol == "wireguard" then WireGuardSettings(s)
    else if s.protocol == "vmess" then OneOf("vnext", Endpoint(s)["users" := Arr([Obj(VmessUser(s))])])
    else if s.protocol == "trojan" then OneOf("servers", TrojanServer(s))
    else if s.protocol == "shadowsocks" then OneOf("servers", ShadowsocksServer(s))
    else if s.protocol == "hysteria" then Endpoint(s)["version" := Number(2)]
    else if s.protocol == "http" || s.protocol == "socks" then SimpleSettings(s)
    else OneOf("vnext", Endpoint(s)["users" := Arr([Obj(VlessUser(s))])])
  }

  /** The outbound built from the fields of the location, not from JSON of a provider. */
  function BuiltOutbound(s: Server): Json {
    if s.protocol == "wireguard" then Obj(Tagged("wireguard", ProxySettings(s)))
    else Streamed(Kind(s), ProxySettings(s), s)
  }

  /** The protocol survives exactly when it is written in lower case, or is vless, which is the fallback. */
  lemma ProtocolKeptExactlyWhen(s: Server)
    requires Lower(s.protocol) in PROXY_PROTOCOLS
    ensures BuiltOutbound(s).GetStr("protocol") == Some(Lower(s.protocol)) <==>
              s.protocol == Lower(s.protocol) || Lower(s.protocol) == "vless"
  {
    hide ProxySettings, StreamSettings;
    if s.protocol in {"wireguard", "vmess", "trojan", "shadowsocks", "hysteria", "http", "socks"} {
      LowerOfProtocols();
    }
  }

  lemma LowerOfProtocols()
    ensures forall protocol | protocol in PROXY_PROTOCOLS :: Lower(protocol) == protocol
  {
    forall protocol | protocol in PROXY_PROTOCOLS
      ensures Lower(protocol) == protocol
    {
      assert forall i | 0 <= i < |protocol| :: 'a' <= protocol[i] <= 'z';
    }
  }
}
