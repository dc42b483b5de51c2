/** Which of the values the client generates name no file, in the sense of the service. */
module FileKeys {
  import opened Wrappers
  import opened Json
  import opened Text
  import opened Runtime
  import opened Outbound
  import opened Provider
  import opened Plan
  import opened Compiler

  predicate Safe(key: string) {
    Lower(key) !in FILE_KEYS
  }

  lemma FileKeysEnd(name: string)
    requires name in FILE_KEYS
    ensures |name| >= 4 && name[|name| - 1] == 'e' && name[|name| - 2] == 'l' && name[|name| - 3] == 'i'
  {}

  /** Every file key ends in "ile". */
  lemma SafeByEnding(key: string)
    requires |key| >= 3 ==>
               LowerChar(key[|key| - 1]) != 'e' || LowerChar(key[|key| - 2]) != 'l' || LowerChar(key[|key| - 3]) != 'i'
    ensures Safe(key)
  {
    if Lower(key) in FILE_KEYS {
      FileKeysEnd(Lower(key));
      assert false;
    }
  }

  const CONFIG_KEYS: set<string> := {
    "log", "loglevel", "dns", "servers", "queryStrategy", "inbounds", "outbounds", "routing", "rules", "balancers",
    "observatory", "burstObservatory", "tag", "protocol", "settings", "domainStrategy"}

  const TUN_KEYS: set<string> := {
    "name", "desc", "mtu", "gateway", "autoSystemRoutingTable", "autoOutboundsInterface", "sniffing", "enabled",
    "destOverride", "routeOnly", "listen", "port", "udp", "auth"}

  const RULE_KEYS: set<string> :=
    {"type", "inboundTag", "outboundTag", "balancerTag", "ip", "process", "domain", "network"}

  const STREAM_KEYS: set<string> := {
    "security", "realitySettings", "tlsSettings", "xhttpSettings", "wsSettings", "httpupgradeSettings", "grpcSettings",
    "httpSettings", "kcpSettings", "hysteriaSettings", "tcpSettings", "streamSettings"}

  const SETTINGS_KEYS: set<string> := {
    "show", "serverName", "fingerprint", "publicKey", "shortId", "spiderX", "allowInsecure", "alpn", "path", "mode",
    "host", "headers", "Host", "serviceName", "multiMode", "authority", "header", "request", "seed", "version"}

  const PROXY_KEYS: set<string> := {
    "address", "users", "id", "alterId", "encryption", "flow", "password", "method", "uot", "user", "pass", "vnext",
    "secretKey", "peers", "noKernelTun", "reserved", "endpoint", "preSharedKey", "allowedIPs", "keepAlive"}

  lemma ConfigKeysSafe()
    ensures forall key | key in CONFIG_KEYS + RULE_KEYS :: Safe(key)
  {
    forall key | key in CONFIG_KEYS + RULE_KEYS { SafeByEnding(key); }
  }

  lemma TunKeysSafe()
    ensures forall key | key in TUN_KEYS :: Safe(key)
  {
    forall key | key in TUN_KEYS { SafeByEnding(key); }
  }

  lemma StreamKeysSafe()
    ensures forall key | key in STREAM_KEYS :: Safe(key)
  {
    forall key | key in STREAM_KEYS { SafeByEnding(key); }
  }

  lemma SettingsKeysSafe()
    ensures forall key | key in SETTINGS_KEYS :: Safe(key)
  {
    forall key | key in SETTINGS_KEYS { SafeByEnding(key); }
  }

  lemma ProxyKeysSafe()
    ensures forall key | key in PROXY_KEYS :: Safe(key)
  {
    forall key | key in PROXY_KEYS { SafeByEnding(key); }
  }

  /** An object of safe keys names a file exactly when one of its values does. */
  lemma ObjectNames(fields: map<string, Json>)
    requires forall key | key in fields :: Safe(key)
    ensures NoFileReferences(Obj(fields)) <==> forall key | key in fields :: NoFileReferences(fields[key])
  {}

  lemma ListNames(items: seq<Json>)
    ensures NoFileReferences(Arr(items)) <==> forall i | 0 <= i < |items| :: NoFileReferences(items[i])
  {}

  lemma OneNames(fields: map<string, Json>)
    ensures NoFileReferences(Arr([Obj(fields)])) <==> NoFileReferences(Obj(fields))
  {
    assert [Obj(fields)][0] == Obj(fields);
  }

  /** A value without parts. */
  predicate Flat(value: Json) {
    && !value.Obj?
    && (value.Arr? ==> forall i | 0 <= i < |value.items| :: !value.items[i].Obj? && !value.items[i].Arr?)
  }

  lemma FlatNames(value: Json)
    requires Flat(value)
    ensures NoFileReferences(value)
  {}

  lemma FlatObjectNames(fields: map<string, Json>)
    requires forall key | key in fields :: Safe(key) && Flat(fields[key])
    ensures NoFileReferences(Obj(fields))
  {
    hide Safe, Flat;
    forall key | key in fields { FlatNames(fields[key]); }
    ObjectNames(fields);
  }

  lemma RealityNames(s: Server)
    ensures NoFileReferences(Obj(RealitySettings(s)))
  {
    hide Safe;
    SettingsKeysSafe();
    FlatObjectNames(RealitySettings(s));
  }

  lemma TlsNames(s: Server)
    ensures NoFileReferences(Obj(TlsSettings(s)))
  {
    hide Safe;
    SettingsKeysSafe();
    FlatObjectNames(TlsSettings(s));
  }

  lemma SecurityNames(s: Server)
    ensures forall key | key in SecurityFields(s) :: Safe(key) && NoFileReferences(SecurityFields(s)[key])
    ensures SecurityFields(s).Keys <= {"security", "realitySettings", "tlsSettings"}
  {
    hide Safe, RealitySettings, TlsSettings;
    StreamKeysSafe();
    RealityNames(s);
    TlsNames(s);
  }

  lemma OptionalFields(key: string, value: Option<Json>)
    requires Safe(key) && (value.Some? ==> NoFileReferences(value.value))
    ensures forall k | k in Field(key, value) :: Safe(k) && NoFileReferences(Field(key, value)[k])
  {
    hide Safe;
  }

  lemma SafeUnion(a: map<string, Json>, b: map<string, Json>)
    requires forall key | key in a :: Safe(key) && NoFileReferences(a[key])
    requires forall key | key in b :: Safe(key) && NoFileReferences(b[key])
    ensures NoFileReferences(Obj(a + b))
    ensures forall key | key in a + b :: Safe(key) && NoFileReferences((a + b)[key])
  {
    hide Safe, NoFileReferences;
    ObjectNames(a + b);
  }

  lemma WsNames(s: Server)
    ensures NoFileReferences(Obj(WsSettings(s)))
  {
    hide Safe;
    SettingsKeysSafe();
    match s.Given("host")
    case Some(host) =>
      FlatObjectNames(map["Host" := Str(host)]);
      OptionalFields("headers", Some(Obj(map["Host" := Str(host)])));
      SafeUnion(map["path" := Str(Or(s.path, "/"))], Field("headers", Some(Obj(map["Host" := Str(host)]))));
    case None =>
      FlatObjectNames(WsSettings(s));
  }

  lemma UpgradeNames(s: Server)
    ensures NoFileReferences(Obj(HttpUpgradeSettings(s)))
  {
    hide Safe;
    SettingsKeysSafe();
    FlatObjectNames(HttpUpgradeSettings(s));
  }

  lemma GrpcNames(s: Server)
    ensures NoFileReferences(Obj(GrpcSettings(s)))
  {
    hide Safe;
    SettingsKeysSafe();
    FlatObjectNames(GrpcSettings(s));
  }

  lemma HttpNames(s: Server)
    ensures NoFileReferences(Obj(HttpSettings(s)))
  {
    hide Safe;
    SettingsKeysSafe();
    FlatObjectNames(HttpSettings(s));
  }

  lemma KcpNames(s: Server)
    ensures NoFileReferences(Obj(KcpSettings(s)))
  {
    hide Safe;
    SettingsKeysSafe();
    ConfigKeysSafe();
    var header := map["type" := Str(Or(s.Param("headerType"), "none"))];
    FlatObjectNames(header);
    FlatNames(Str(Or(s.Given("seed"), "")));
    SafeUnion(map["header" := Obj(header)], StrField("seed", s.Given("seed")));
  }

  lemma FakeHttpNames(s: Server)
    ensures NoFileReferences(Obj(FakeHttpRequest(s)))
  {
    hide Safe, SplitList;
    SettingsKeysSafe();
    var headers := match s.Given("host") case Some(host) => Some(Obj(map["Host" := Arr(Strings(SplitList(host)))]))
      case None => None;
    var path := match s.path case Some(path) => Some(Arr(Strings(SplitList(path)))) case None => None;
    if headers.Some? {
      FlatObjectNames(headers.value.fields);
    }
    if path.Some? {
      FlatNames(path.value);
    }
    OptionalFields("headers", headers);
    OptionalFields("path", path);
    SafeUnion(Field("headers", headers), Field("path", path));
  }

  lemma TcpNames(s: Server)
    ensures NoFileReferences(Obj(map["header" := Obj(map["type" := Str("http"),
                                                         "request" := Obj(FakeHttpRequest(s))])]))
  {
    hide Safe, FakeHttpRequest;
    SettingsKeysSafe();
    ConfigKeysSafe();
    FakeHttpNames(s);
    var header := map["type" := Str("http"), "request" := Obj(FakeHttpRequest(s))];
    ObjectNames(header);
    ObjectNames(map["header" := Obj(header)]);
  }

  lemma HysteriaNames(s: Server)
    ensures NoFileReferences(Obj(map["version" := Number(2), "auth" := Str(s.uuid)]))
  {
    hide Safe;
    SettingsKeysSafe();
    TunKeysSafe();
    FlatObjectNames(map["version" := Number(2), "auth" := Str(s.uuid)]);
  }

  /** The free-form part of an xhttp location, if that is its transport. */
  predicate ExtraNamesNoFile(s: Server) {
    XrayNetwork(s.transport) == "xhttp" ==> NoFileReferences(Obj(XhttpSettings(s)))
  }

  const TRANSPORT_KEYS: set<string> :=
    {"xhttpSettings", "wsSettings", "httpupgradeSettings", "grpcSettings", "httpSettings",
                                        "kcpSettings", "hysteriaSettings", "tcpSettings"}

  lemma TransportNames(s: Server)
    ensures TransportFields(s, XrayNetwork(s.transport)).Keys <= TRANSPORT_KEYS
    ensures forall key | key in TransportFields(s, XrayNetwork(s.transport)) :: Safe(key)
    ensures (forall key | key in TransportFields(s, XrayNetwork(s.transport)) ::
             NoFileReferences(TransportFields(s, XrayNetwork(s.transport))[key]))
            <==> ExtraNamesNoFile(s)
  {
    hide Safe, XhttpSettings, WsSettings, HttpUpgradeSettings, GrpcSettings, HttpSettings, KcpSettings,
         FakeHttpRequest, XrayNetwork, NoFileReferences;
    StreamKeysSafe();
    WsNames(s);
    UpgradeNames(s);
    GrpcNames(s);
    HttpNames(s);
    KcpNames(s);
    TcpNames(s);
    HysteriaNames(s);
    if XrayNetwork(s.transport) == "xhttp" {
      assert TransportFields(s, "xhttp")["xhttpSettings"] == Obj(XhttpSettings(s));
    }
  }

  lemma StreamNames(s: Server)
    ensures NoFileReferences(Obj(StreamSettings(s))) <==> ExtraNamesNoFile(s)
    ensures "sockopt" !in StreamSettings(s)
  {
    hide Safe, SecurityFields, TransportFields, XrayNetwork, NoFileReferences, ExtraNamesNoFile;
    ConfigKeysSafe();
    SecurityNames(s);
    TransportNames(s);
    var stream := StreamSettings(s);
    var transport := TransportFields(s, XrayNetwork(s.transport));
    FlatNames(Str(XrayNetwork(s.transport)));
    ObjectNames(stream);
    forall key | key in transport
      ensures stream[key] == transport[key]
    {}
  }

  lemma ListOfOneNames(key: string, entry: map<string, Json>)
    requires Safe(key) && NoFileReferences(Obj(entry))
    ensures NoFileReferences(Obj(OneOf(key, entry)))
  {
    hide Safe;
    OneNames(entry);
    ObjectNames(OneOf(key, entry));
  }

  lemma UserNames(s: Server, user: map<string, Json>)
    requires user == VmessUser(s) || user == VlessUser(s)
    ensures NoFileReferences(Obj(OneOf("vnext", Endpoint(s)["users" := Arr([Obj(user)])])))
  {
    hide Safe, NoFileReferences;
    ProxyKeysSafe();
    StreamKeysSafe();
    TunKeysSafe();
    FlatObjectNames(user);
    OneNames(user);
    var entry := Endpoint(s)["users" := Arr([Obj(user)])];
    FlatNames(Str(s.host));
    FlatNames(Number(s.port));
    ObjectNames(entry);
    ListOfOneNames("vnext", entry);
  }

  lemma ServerNames(s: Server, entry: map<string, Json>)
    requires entry == TrojanServer(s) || entry == ShadowsocksServer(s)
    ensures NoFileReferences(Obj(OneOf("servers", entry)))
  {
    hide Safe, NoFileReferences;
    ProxyKeysSafe();
    ConfigKeysSafe();
    TunKeysSafe();
    FlatObjectNames(entry);
    ListOfOneNames("servers", entry);
  }

  lemma SimpleNames(s: Server)
    ensures NoFileReferences(Obj(SimpleSettings(s)))
  {
    hide Safe, NoFileReferences, Filled;
    ProxyKeysSafe();
    TunKeysSafe();
    FlatObjectNames(SimpleSettings(s));
  }

  lemma VersionedNames(s: Server)
    ensures NoFileReferences(Obj(Endpoint(s)["version" := Number(2)]))
  {
    hide Safe, NoFileReferences;
    ProxyKeysSafe();
    SettingsKeysSafe();
    TunKeysSafe();
    FlatObjectNames(Endpoint(s)["version" := Number(2)]);
  }

  predicate FlatFields(fields: map<string, Json>) {
    forall key | key in fields :: Safe(key) && Flat(fields[key])
  }

  lemma FlatFieldsNames(fields: map<string, Json>)
    requires FlatFields(fields)
    ensures NoFileReferences(Obj(fields))
  {
    FlatObjectNames(fields);
  }

  lemma FlatUnion(a: map<string, Json>, b: map<string, Json>)
    requires FlatFields(a) && FlatFields(b)
    ensures FlatFields(a + b)
  {
    hide Safe, Flat;
  }

  /** The optional fields of a WireGuard outbound are flat. */
  lemma FlatOptions(key: string, text: Option<string>)
    requires Safe(key)
    ensures FlatFields(StrField(key, text)) && FlatFields(ListField(key, text)) && FlatFields(NumberField(key, text))
  {
    hide Safe, SplitList, ParseBelow;
  }

  lemma FlatReserved(text: Option<string>)
    requires Safe("reserved")
    ensures FlatFields(ReservedField(text))
  {
    hide Safe, SplitOn, Bytes;
  }

  lemma PeerNames(s: Server)
    ensures NoFileReferences(Obj(WireGuardPeer(s)))
  {
    hide Safe, NoFileReferences, FlatFields, StrField, ListField, NumberField, EndpointText;
    ProxyKeysSafe();
    SettingsKeysSafe();
    var head := map["endpoint" := Str(EndpointText(s.host, s.port)), "publicKey" := Str(Or(s.publicKey, ""))];
    assert FlatFields(head) by { PeerHead(EndpointText(s.host, s.port), Or(s.publicKey, "")); }
    FlatOptions("preSharedKey", s.Given("preSharedKey"));
    FlatOptions("allowedIPs", s.Param("allowedIPs"));
    FlatOptions("keepAlive", s.Param("keepAlive"));
    FlatUnion(head, StrField("preSharedKey", s.Given("preSharedKey")));
    FlatUnion(head + StrField("preSharedKey", s.Given("preSharedKey")), ListField("allowedIPs", s.Param("allowedIPs")));
    FlatUnion(head + StrField("preSharedKey", s.Given("preSharedKey")) + ListField("allowedIPs", s.Param("allowedIPs")),
              NumberField("keepAlive", s.Param("keepAlive")));
    FlatFieldsNames(WireGuardPeer(s));
  }

  lemma PeerHead(endpoint: string, publicKey: string)
    ensures FlatFields(map["endpoint" := Str(endpoint), "publicKey" := Str(publicKey)])
  {
    hide Safe;
    ProxyKeysSafe();
    SettingsKeysSafe();
  }

  lemma WireGuardHeadNames(s: Server)
    ensures forall key | key in WireGuardHead(s) :: Safe(key) && NoFileReferences(WireGuardHead(s)[key])
  {
    hide Safe, NoFileReferences, WireGuardPeer;
    ProxyKeysSafe();
    ConfigKeysSafe();
    PeerNames(s);
    OneNames(WireGuardPeer(s));
    FlatNames(Str(s.uuid));
    FlatNames(Arr([Str("10.0.0.1/32")]));
    FlatNames(Bool(true));
    FlatNames(Str(Or(s.Param("domainStrategy"), "ForceIP")));
  }

  lemma WireGuardNames(s: Server)
    ensures NoFileReferences(Obj(WireGuardSettings(s)))
  {
    hide Safe, NoFileReferences, FlatFields, ListField, NumberField, ReservedField, WireGuardHead;
    ProxyKeysSafe();
    TunKeysSafe();
    WireGuardHeadNames(s);
    FlatOptions("address", s.Param("localAddress"));
    FlatOptions("mtu", s.Param("mtu"));
    FlatReserved(s.Param("reserved"));
    var address, mtu := ListField("address", s.Param("localAddress")), NumberField("mtu", s.Param("mtu"));
    var reserved := ReservedField(s.Param("reserved"));
    FlatUnion(address, mtu);
    FlatUnion(address + mtu, reserved);
    FlatFieldsSafe(address + mtu + reserved);
    SafeUnion(WireGuardHead(s), address + mtu + reserved);
    assert WireGuardSettings(s) == WireGuardHead(s) + (address + mtu + reserved) by { WireGuardInParts(s); }
  }

  lemma WireGuardInParts(s: Server)
    ensures WireGuardSettings(s) == WireGuardHead(s) +
              (ListField("address", s.Param("localAddress")) + NumberField("mtu", s.Param("mtu"))
               + ReservedField(s.Param("reserved")))
  {
    hide ListField, NumberField, ReservedField, WireGuardPeer;
  }

  lemma FlatFieldsSafe(fields: map<string, Json>)
    requires FlatFields(fields)
    ensures forall key | key in fields :: Safe(key) && NoFileReferences(fields[key])
  {
    hide Safe, Flat;
    forall key | key in fields { FlatNames(fields[key]); }
  }

  lemma TaggedNames(protocol: string, settings: map<string, Json>)
    requires NoFileReferences(Obj(settings))
    ensures NoFileReferences(Obj(Tagged(protocol, settings)))
  {
    hide Safe, NoFileReferences;
    ConfigKeysSafe();
    FlatNames(Str("proxy"));
    FlatNames(Str(protocol));
    ObjectNames(Tagged(protocol, settings));
  }

  lemma StreamedNames(protocol: string, settings: map<string, Json>, s: Server)
    requires NoFileReferences(Obj(settings))
    ensures NoFileReferences(Streamed(protocol, settings, s)) <==> ExtraNamesNoFile(s)
  {
    hide Safe, NoFileReferences, StreamSettings, ExtraNamesNoFile;
    ConfigKeysSafe();
    StreamKeysSafe();
    FlatNames(Str("proxy"));
    FlatNames(Str(protocol));
    StreamNames(s);
    var fields := Tagged(protocol, settings)["streamSettings" := Obj(StreamSettings(s))];
    assert fields["streamSettings"] == Obj(StreamSettings(s));
    ObjectNames(fields);
  }

  lemma ProxySettingsName(s: Server)
    ensures NoFileReferences(Obj(ProxySettings(s)))
  {
    hide NoFileReferences, WireGuardSettings, VmessUser, VlessUser, TrojanServer, ShadowsocksServer, SimpleSettings;
    WireGuardNames(s);
    UserNames(s, VmessUser(s));
    UserNames(s, VlessUser(s));
    ServerNames(s, TrojanServer(s));
    ServerNames(s, ShadowsocksServer(s));
    SimpleNames(s);
    VersionedNames(s);
  }

  /** A built outbound names no file, but for what an xhttp location brings along. */
  lemma BuiltNames(s: Server)
    ensures NoFileReferences(BuiltOutbound(s)) <==> s.protocol == "wireguard" || ExtraNamesNoFile(s)
    ensures Bindable(BuiltOutbound(s)) && !IsOffline(BuiltOutbound(s)) && BuiltOutbound(s).Obj?
  {
    hide NoFileReferences, ProxySettings, StreamSettings, ExtraNamesNoFile;
    ProxySettingsName(s);
    TaggedNames("wireguard", ProxySettings(s));
    StreamedNames(Kind(s), ProxySettings(s), s);
    StreamNames(s);
  }
}
