/** The builder of outbounds and their parser, each undoing the other. */
module RoundTrip {
  import opened Wrappers
  import opened Json
  import opened Text
  import opened Outbound
  import opened Parser

  /** What a location must have for its outbound to be read back at all. */
  predicate Readable(s: Server) {
    && s.host != "" && !IsSentinel(s.host)
    && (Kind(s) == "vless" || Kind(s) == "vmess" ==> s.uuid != "")
    && (Kind(s) == "trojan" ==> Or(s.password, s.uuid) != "")
  }

  predicate OverHysteria(s: Server) {
    XrayNetwork(s.transport) == "hysteria"
  }

  function ReadUuid(s: Server): string {
    var kind := Kind(s);
    if kind == "trojan" then Or(s.password, s.uuid)
    else if kind == "shadowsocks" then ""
    else if kind == "hysteria" then (if OverHysteria(s) then s.uuid else "")
    else if kind == "http" || kind == "socks" then Trim(s.uuid)
    else s.uuid
  }

  function TrimmedPassword(password: Option<string>): Option<string> {
    Filled(Some(Trim(Or(password, ""))))
  }

  function ReadPassword(s: Server): Option<string> {
    var kind := Kind(s);
    if kind == "trojan" then Some(Or(s.password, s.uuid))
    else if kind == "shadowsocks" then Filled(s.password)
    else if kind == "http" || kind == "socks" then TrimmedPassword(s.password)
    else None
  }

  function VmessParams(s: Server): map<string, string> {
    With(With(map[], "scy", Filled(Some(Or(s.Param("scy"), "auto")))), "aid", Some(Decimal(AlterId(s))))
  }

  /** The location as it is read back, without its stream settings. */
  function Head(s: Server): Server {
    Base(Kind(s), s.host, s.port).(
      uuid := ReadUuid(s),
      password := ReadPassword(s),
      cipher := if Kind(s) == "shadowsocks" then Filled(s.cipher) else None,
      flow := if Kind(s) == "vless" || Kind(s) == "trojan" then Filled(s.flow) else None,
      rawParams := if Kind(s) == "vmess" then VmessParams(s) else map[])
  }

  predicate Parsable(s: Server) {
    s.host != "" && (Kind(s) == "vless" || Kind(s) == "vmess" ==> s.uuid != "")
      && (Kind(s) == "trojan" ==> Or(s.password, s.uuid) != "")
  }

  lemma VlessHead(s: Server)
    requires s.port < PORT_LIMIT && Kind(s) == "vless"
    ensures VlessOrVmess("vless", Some(Obj(ProxySettings(s)))) == if Parsable(s) then Some(Head(s)) else None
  {
    hide ParseBelow, Decimal, Lower, Trim;
    var entry := Endpoint(s)["users" := Arr([Obj(VlessUser(s))])];
    assert First(Obj(entry).GetArr("users")) == Some(Obj(VlessUser(s)));
    assert DirectOrFirst(Some(Obj(OneOf("vnext", entry))), "vnext") == Some(Obj(entry));
  }

  lemma VmessHead(s: Server)
    requires s.port < PORT_LIMIT && Kind(s) == "vmess"
    ensures VlessOrVmess("vmess", Some(Obj(ProxySettings(s)))) == if Parsable(s) then Some(Head(s)) else None
  {
    hide ParseBelow, Decimal, Lower, Trim, AlterId, VmessUser;
    var entry := Endpoint(s)["users" := Arr([Obj(VmessUser(s))])];
    assert Obj(entry).Get("address") == Some(Str(s.host)) && Obj(entry).Get("port") == Some(Number(s.port));
    assert First(Obj(entry).GetArr("users")) == Some(Obj(VmessUser(s)));
    assert DirectOrFirst(Some(Obj(OneOf("vnext", entry))), "vnext") == Some(Obj(entry));
    VmessFields(s);
  }

  lemma VmessFields(s: Server)
    ensures var user := Obj(VmessUser(s));
            && JsonStr(user, "id") == Filled(Some(s.uuid))
            && JsonStr(user, "flow") == None
            && JsonStr(user, "security") == Filled(Some(Or(s.Param("scy"), "auto")))
            && user.Get("alterId") == Some(Number(AlterId(s)))
    ensures AlterId(s) < 0x1_0000_0000
  {
    hide ParseBelow;
  }

  lemma ServerFields(s: Server)
    ensures var trojan := Obj(TrojanServer(s));
            && trojan.Get("address") == Some(Str(s.host)) && trojan.Get("port") == Some(Number(s.port))
            && trojan.GetStr("password") == Some(Or(s.password, s.uuid))
               && trojan.GetStr("flow") == Some(Or(s.flow, ""))
    ensures var shadowsocks := Obj(ShadowsocksServer(s));
            && shadowsocks.Get("address") == Some(Str(s.host)) && shadowsocks.Get("port") == Some(Number(s.port))
            && shadowsocks.GetStr("method") == Some(Or(s.cipher, ""))
               && shadowsocks.GetStr("password") == Some(Or(s.password, ""))
  {}

  lemma ServerHead(s: Server)
    requires s.port < PORT_LIMIT
    requires Kind(s) == "trojan" || Kind(s) == "shadowsocks"
    ensures (if Kind(s) == "trojan" then Trojan(Some(Obj(ProxySettings(s))))
             else Shadowsocks(Some(Obj(ProxySettings(s)))))
            == if Parsable(s) then Some(Head(s)) else None
  {
    hide Lower, Trim, TrojanServer, ShadowsocksServer;
    ServerFields(s);
    var entry := if Kind(s) == "trojan" then TrojanServer(s) else ShadowsocksServer(s);
    assert DirectOrFirst(Some(Obj(OneOf("servers", entry))), "servers") == Some(Obj(entry));
  }

  lemma SimpleFields(s: Server)
    ensures var settings := Obj(SimpleSettings(s));
            && settings.Get("address") == Some(Str(s.host)) && settings.Get("port") == Some(Number(s.port))
            && settings.GetArr("users") == None
            && settings.GetStr("user") == Filled(Some(s.uuid)) && settings.GetStr("username") == None
            && settings.GetStr("pass") == Filled(s.password) && settings.GetStr("password") == None
  {}

  lemma SimpleHead(s: Server)
    requires s.port < PORT_LIMIT
    requires Kind(s) == "http" || Kind(s) == "socks"
    ensures HttpOrSocks(Kind(s), Some(Obj(ProxySettings(s)))) == if Parsable(s) then Some(Head(s)) else None
  {
    hide Lower, Trim, JsonStrAny, SimpleSettings;
    var settings := Obj(SimpleSettings(s));
    SimpleFields(s);
    assert DirectOrFirst(Some(settings), "servers") == Some(settings);
    SimpleCredential(settings, "user", "username", Filled(Some(s.uuid)));
    SimpleCredential(settings, "pass", "password", Filled(s.password));
    TrimEmpty();
    assert JsonStrAny(settings, "user", "username") == Filled(Some(Trim(s.uuid)));
    assert JsonStrAny(settings, "pass", "password") == TrimmedPassword(s.password);
  }

  lemma TrimEmpty()
    ensures Trim("") == ""
  {}

  lemma SimpleCredential(settings: Json, key: string, otherKey: string, text: Option<string>)
    requires settings.GetStr(key) == text && settings.GetStr(otherKey) == None && text != Some("")
    ensures JsonStrAny(settings, key, otherKey) == Filled(Some(Trim(Or(text, ""))))
  {
    hide TrimStart, TrimEnd;
    TrimEmpty();
  }

  lemma HysteriaHead(s: Server)
    requires s.port < PORT_LIMIT && Kind(s) == "hysteria"
    ensures Hysteria(Some(Obj(ProxySettings(s))), Some(Obj(StreamSettings(s)))) == if Parsable(s) then Some(Head(s))
            else None
  {
    hide Lower, Trim, XrayNetwork, StreamSettings, TransportFields, RealitySettings, TlsSettings;
    StreamKeys(s);
    AuthRead(s);
    var settings := Obj(Endpoint(s)["version" := Number(2)]);
    assert settings.Get("address") == Some(Str(s.host)) && settings.Get("port") == Some(Number(s.port));
    assert JsonStr(settings, "auth") == None;
  }

  /** The credential of Hysteria2 is in its transport settings. */
  lemma AuthRead(s: Server)
    ensures JsonStrIn(Obj(TransportFields(s, XrayNetwork(s.transport))).Get("hysteriaSettings"), "auth")
            == if OverHysteria(s) then Filled(Some(s.uuid)) else None
  {
    hide XrayNetwork, XhttpSettings, WsSettings, HttpUpgradeSettings, GrpcSettings, HttpSettings, KcpSettings,
         FakeHttpRequest;
  }

  lemma TransportKeys(s: Server, network: string)
    ensures TransportFields(s, network).Keys !! {"network", "security", "realitySettings", "tlsSettings"}
  {
    hide XhttpSettings, WsSettings, HttpUpgradeSettings, GrpcSettings, HttpSettings, KcpSettings, FakeHttpRequest;
  }

  lemma StreamKeys(s: Server)
    ensures var stream := Obj(StreamSettings(s));
            && stream.GetStr("network") == Some(XrayNetwork(s.transport))
            && stream.GetStr("security")
               == Some(if s.security == "reality" || s.security == "tls" then s.security else "none")
            && stream.Get("realitySettings")
               == (if s.security == "reality" then Some(Obj(RealitySettings(s))) else None)
            && stream.Get("tlsSettings") == (if s.security == "tls" then Some(Obj(TlsSettings(s))) else None)
            && forall key | key !in {"network", "security", "realitySettings", "tlsSettings"} ::
                 stream.Get(key) == Obj(TransportFields(s, XrayNetwork(s.transport))).Get(key)
  {
    hide XrayNetwork, RealitySettings, TlsSettings, TransportFields;
    TransportKeys(s, XrayNetwork(s.transport));
  }

  /**
   A location that asks for TLS gets it exactly when it says so in lower case, though validation accepts any case. What
   it gets checks the certificate, for the name the location gives or else for its host.
   */
  lemma TlsKeptExactlyWhen(s: Server)
    requires Lower(s.security) == "tls"
    ensures Obj(StreamSettings(s)).GetStr("security") == Some("tls") <==> s.security == "tls"
    ensures Obj(StreamSettings(s)).Get("tlsSettings").Some? <==> s.security == "tls"
    ensures match Obj(StreamSettings(s)).Get("tlsSettings")
            case Some(tls) =>
              && tls.Get("allowInsecure") == Some(Bool(false))
              && tls.GetStr("serverName") == (if s.sni.Some? && s.sni.value != "" then s.sni else Some(s.host))
            case None => true
  {
    hide StreamSettings, TlsSettings, Lower;
    StreamKeys(s);
    TlsChecks(s);
  }

  lemma TlsChecks(s: Server)
    ensures Obj(TlsSettings(s)).Get("allowInsecure") == Some(Bool(false))
    ensures Obj(TlsSettings(s)).GetStr("serverName")
            == if s.sni.Some? && s.sni.value != "" then s.sni else Some(s.host)
  {
    hide Alpn, Fingerprint;
  }

  lemma HeadParsed(s: Server, dialled: Option<(string, nat)>)
    requires s.port < PORT_LIMIT && s.protocol != "wireguard"
    ensures ParseHead(BuiltOutbound(s), dialled) == if Parsable(s) then Some(Head(s)) else None
    ensures BuiltOutbound(s).Get("streamSettings") == Some(Obj(StreamSettings(s)))
  {
    hide VlessOrVmess, Trojan, Shadowsocks, HttpOrSocks, Hysteria, ProxySettings, StreamSettings, Head, Parsable;
    if Kind(s) == "vmess" {
      VmessHead(s);
    } else if Kind(s) == "trojan" || Kind(s) == "shadowsocks" {
      ServerHead(s);
    } else if Kind(s) == "http" || Kind(s) == "socks" {
      SimpleHead(s);
    } else if Kind(s) == "hysteria" {
      HysteriaHead(s);
    } else {
      VlessHead(s);
    }
  }

  function Security(s: Server): string {
    if s.security == "reality" || s.security == "tls" then s.security else "none"
  }

  function ReadSpx(s: Server): Option<string> {
    if s.security == "reality" then Filled(Some(Or(s.Param("spx"), "/"))) else None
  }

  function ReadAlpn(s: Server): Option<string> {
    if s.security == "tls" && s.Given("alpn").Some? && SplitList(s.Given("alpn").value) != []
    then Some(JoinWith(SplitList(s.Given("alpn").value), ',')) else None
  }

  function ReadPath(s: Server): Option<string> {
    var network := XrayNetwork(s.transport);
    if network == "ws" || network == "httpupgrade" then Filled(Some(Or(s.path, "/")))
    else if network == "xhttp" then JsonStr(Obj(XhttpSettings(s)), "path")
    else None
  }

  function ReadMode(s: Server): Option<string> {
    var network := XrayNetwork(s.transport);
    if network == "xhttp" then JsonStr(Obj(XhttpSettings(s)), "mode")
    else if network == "grpc" && (s.mode == Some("multi") || s.mode == Some("gun")) then Some("multi")
    else None
  }

  function SecurityParams(s: Server): map<string, string> {
    With(With(Head(s).rawParams, "spx", ReadSpx(s)), "alpn", ReadAlpn(s))
  }

  function ReadParams(s: Server): map<string, string> {
    var network, params := XrayNetwork(s.transport), SecurityParams(s);
    if network == "ws" || network == "httpupgrade" then With(params, "host", s.Given("host"))
    else if network == "xhttp" then With(params, "host", JsonStr(Obj(XhttpSettings(s)), "host"))
    else if network == "grpc"
      then With(With(params, "serviceName", Filled(s.Param("serviceName"))), "authority", s.Given("authority"))
    else params
  }

  /** The location in the form in which it is read back from its own outbound. */
  function Canonical(s: Server): Server {
    Head(s).(
      transport := XrayNetwork(s.transport),
      security := Security(s),
      sni := if Security(s) == "none" then None else Filled(Some(ServerName(s))),
      fingerprint := if Security(s) == "none" then None else Some(Fingerprint(s)),
      publicKey := if s.security == "reality" then Filled(s.publicKey) else None,
      shortId := if s.security == "reality" then Filled(s.shortId) else None,
      path := ReadPath(s),
      mode := ReadMode(s),
      rawParams := ReadParams(s))
  }

  lemma {:induction false} TextsOfStrings(texts: seq<string>)
    ensures Texts(Strings(texts)) == texts
  {
    if texts != [] {
      TextsOfStrings(texts[1..]);
      assert Strings(texts)[1..] == Strings(texts[1..]);
    }
  }

  /** The security settings, read onto a head that has none. */
  lemma SecurityRead(s: Server, named: Server)
    requires named.sni.None? && named.fingerprint.None? && named.publicKey.None? && named.shortId.None?
    requires named.rawParams == Head(s).rawParams
    ensures var stream := Obj(StreamSettings(s));
            ApplyTls(ApplyReality(named, stream.Get("realitySettings")), stream.Get("tlsSettings"))
            == named.(
                 sni := if Security(s) == "none" then None else Filled(Some(ServerName(s))),
                 fingerprint := if Security(s) == "none" then None else Some(Fingerprint(s)),
                 publicKey := if s.security == "reality" then Filled(s.publicKey) else None,
                 shortId := if s.security == "reality" then Filled(s.shortId) else None,
                 rawParams := SecurityParams(s))
  {
    hide StreamSettings, XrayNetwork, Head, TransportFields, SplitList, JoinWith, Texts;
    StreamKeys(s);
    if s.security == "reality" {
      RealityFields(s);
    } else if s.security == "tls" {
      TlsFields(s);
    }
  }

  lemma RealityFields(s: Server)
    ensures var reality := Obj(RealitySettings(s));
            && JsonStr(reality, "serverName") == Filled(Some(ServerName(s)))
            && JsonStr(reality, "publicKey") == Filled(s.publicKey)
            && JsonStr(reality, "shortId") == Filled(s.shortId)
            && JsonStr(reality, "fingerprint") == Some(Fingerprint(s))
            && JsonStr(reality, "spiderX") == Filled(Some(Or(s.Param("spx"), "/")))
  {}

  lemma TlsFields(s: Server)
    ensures var tls := Obj(TlsSettings(s));
            && JsonStr(tls, "serverName") == Filled(Some(ServerName(s)))
            && JsonStr(tls, "fingerprint") == Some(Fingerprint(s))
            && tls.Get("allowInsecure") == Some(Bool(false))
            && (match tls.GetArr("alpn") case Some(items) => Texts(items) case None => [])
               == (if s.Given("alpn").Some? then SplitList(s.Given("alpn").value) else [])
  {
    hide SplitList, Texts;
    if s.Given("alpn").Some? {
      TextsOfStrings(SplitList(s.Given("alpn").value));
    }
  }

  lemma WsFields(s: Server)
    ensures var ws := Obj(WsSettings(s));
            && JsonStr(ws, "path") == Filled(Some(Or(s.path, "/")))
            && (if ws.Get("headers").Some? then ws.Get("headers").value.GetStr("Host") else None) == s.Given("host")
  {}

  lemma UpgradeFields(s: Server)
    ensures JsonStr(Obj(HttpUpgradeSettings(s)), "path") == Filled(Some(Or(s.path, "/")))
    ensures JsonStr(Obj(HttpUpgradeSettings(s)), "host") == s.Given("host")
  {}

  lemma GrpcFields(s: Server)
    ensures var grpc := Obj(GrpcSettings(s));
            && JsonStr(grpc, "serviceName") == Filled(s.Param("serviceName"))
            && JsonStr(grpc, "authority") == s.Given("authority")
            && (grpc.Get("multiMode") == Some(Bool(true)) <==> s.mode == Some("multi") || s.mode == Some("gun"))
  {}

  /** Which block of settings a network reads back, and what it finds there. */
  lemma BlocksRead(s: Server)
    ensures var network, stream := XrayNetwork(s.transport), Obj(StreamSettings(s));
            && (network == "ws" ==> stream.Get("wsSettings") == Some(Obj(WsSettings(s))))
            && (network == "xhttp" ==> stream.Get("xhttpSettings") == Some(Obj(XhttpSettings(s))))
            && (network == "httpupgrade" ==> stream.Get("httpupgradeSettings") == Some(Obj(HttpUpgradeSettings(s))))
            && (network == "grpc" ==> stream.Get("grpcSettings") == Some(Obj(GrpcSettings(s))))
  {
    hide StreamSettings, XrayNetwork, XhttpSettings, WsSettings, HttpUpgradeSettings, GrpcSettings, HttpSettings,
         KcpSettings, FakeHttpRequest;
    StreamKeys(s);
  }

  lemma TransportRead(s: Server, secured: Server)
    requires secured.transport == XrayNetwork(s.transport) && secured.rawParams == SecurityParams(s)
    requires secured.path.None? && secured.mode.None?
    ensures ApplyTransport(secured, Obj(StreamSettings(s)))
            == secured.(path := ReadPath(s), mode := ReadMode(s), rawParams := ReadParams(s))
  {
    hide StreamSettings, XrayNetwork, SecurityParams, XhttpSettings, WsSettings, HttpUpgradeSettings, GrpcSettings,
         JsonStr, With;
    BlocksRead(s);
    WsFields(s);
    UpgradeFields(s);
    GrpcFields(s);
  }

  lemma NetworkIsNormal(transport: string)
    ensures NormalizeNetwork(XrayNetwork(transport)) == XrayNetwork(transport)
    ensures XrayNetwork(XrayNetwork(transport)) == XrayNetwork(transport)
  {
    hide Lower;
    NetworksAreLower();
  }

  lemma NetworksAreLower()
    ensures forall name | name in {"xhttp", "ws", "grpc", "httpupgrade", "http", "kcp", "hysteria", "tcp"} ::
              Lower(name) == name
  {
    forall name | name in {"xhttp", "ws", "grpc", "httpupgrade", "http", "kcp", "hysteria", "tcp"}
      ensures Lower(name) == name
    {
      assert forall i | 0 <= i < |name| :: 'a' <= name[i] <= 'z';
    }
  }

  /** A WireGuard location as it is read back: the endpoint and the private key are all that is kept. */
  function Peer(s: Server, dialled: (string, nat)): Server {
    Base("wireguard", dialled.0, dialled.1).(uuid := s.uuid, transport := "wireguard")
  }

  /** What is read back from the outbound of a location, if anything. */
  function ReadBack(s: Server, dialled: Option<(string, nat)>): Option<Server> {
    if s.protocol == "wireguard" then
      if dialled.Some? && !IsSentinel(dialled.value.0) then Some(Peer(s, dialled.value)) else None
    else if Readable(s) then Some(Canonical(s))
    else None
  }

  /**
   Reading an outbound that was built gives the location in the form above, or nothing if it cannot be read.
   `dialled` is what the endpoint text of a WireGuard peer is read as.
   */
  lemma ParseAfterBuild(s: Server, dialled: Option<(string, nat)>)
    requires s.port < PORT_LIMIT
    ensures ParseOutbound(BuiltOutbound(s), dialled) == ReadBack(s, dialled)
  {
    hide ParseOutbound, BuiltOutbound, Canonical, Peer, IsSentinel, Readable;
    if s.protocol == "wireguard" {
      PeerParsed(s, dialled);
    } else {
      StreamedParsed(s, dialled);
    }
  }

  lemma PeerParsed(s: Server, dialled: Option<(string, nat)>)
    requires s.protocol == "wireguard"
    ensures ParseOutbound(BuiltOutbound(s), dialled) == ReadBack(s, dialled)
  {
    hide VlessOrVmess, Trojan, Shadowsocks, HttpOrSocks, Hysteria, WireGuard, IsSentinel, WireGuardSettings;
    PeerHead(s, dialled);
  }

  lemma PeerHead(s: Server, dialled: Option<(string, nat)>)
    ensures WireGuard(Some(Obj(WireGuardSettings(s))), dialled)
            == if dialled.Some? then Some(Peer(s, dialled.value)) else None
  {
    hide EndpointText, WireGuardSettings, WireGuardPeer, StrField, ListField, NumberField, ReservedField, LocalAddress;
    PeerFields(s);
    SettingsFields(s);
    EndpointIsText(s.host, s.port);
    assert First(Obj(WireGuardSettings(s)).GetArr("peers")) == Some(Obj(WireGuardPeer(s)));
  }

  lemma EndpointIsText(host: string, port: nat)
    ensures EndpointText(host, port) != ""
  {
    hide TrimBrackets, Decimal;
  }

  /** An optional field is the only one it can add. */
  lemma OptionalKeys(key: string, text: Option<string>)
    ensures StrField(key, text).Keys <= {key} && ListField(key, text).Keys <= {key}
            && NumberField(key, text).Keys <= {key}
    ensures ReservedField(text).Keys <= {"reserved"}
  {
    hide ParseBelow, SplitList, Bytes, SplitOn;
  }

  /** The fields of a peer, one by one. */
  lemma PeerFields(s: Server)
    ensures var peer := Obj(WireGuardPeer(s));
            && peer.Get("endpoint") == Some(Str(EndpointText(s.host, s.port)))
            && peer.Get("publicKey") == Some(Str(Or(s.publicKey, "")))
            && peer.Get("preSharedKey") == Obj(StrField("preSharedKey", s.Given("preSharedKey"))).Get("preSharedKey")
            && peer.Get("allowedIPs") == Obj(ListField("allowedIPs", s.Param("allowedIPs"))).Get("allowedIPs")
            && peer.Get("keepAlive") == Obj(NumberField("keepAlive", s.Param("keepAlive"))).Get("keepAlive")
            && peer.fields.Keys <= PEER_KEYS
  {
    hide EndpointText, StrField, ListField, NumberField;
    OptionalKeys("preSharedKey", s.Given("preSharedKey"));
    OptionalKeys("allowedIPs", s.Param("allowedIPs"));
    OptionalKeys("keepAlive", s.Param("keepAlive"));
  }

  /** The fields that the settings around it always have. */
  lemma AlwaysFields(s: Server)
    ensures var head := Obj(WireGuardHead(s));
            && head.Get("secretKey") == Some(Str(s.uuid))
            && head.Get("peers") == Some(Arr([Obj(WireGuardPeer(s))]))
            && head.Get("domainStrategy") == Some(Str(Or(s.Param("domainStrategy"), "ForceIP")))
            && head.Get("noKernelTun") == Some(Bool(true))
            && head.Get("address") == Some(Arr([Str("10.0.0.1/32")]))
            && head.fields.Keys <= {"secretKey", "peers", "domainStrategy", "noKernelTun", "address"}
  {
    hide WireGuardPeer;
  }

  /** The fields of the settings around it, one by one. */
  lemma SettingsFields(s: Server)
    ensures var settings := Obj(WireGuardSettings(s));
            && settings.Get("secretKey") == Some(Str(s.uuid))
            && settings.Get("peers") == Some(Arr([Obj(WireGuardPeer(s))]))
            && settings.Get("domainStrategy") == Some(Str(Or(s.Param("domainStrategy"), "ForceIP")))
            && settings.Get("noKernelTun") == Some(Bool(true))
            && settings.Get("address") == Some(LocalAddress(s))
            && settings.Get("mtu") == Obj(NumberField("mtu", s.Param("mtu"))).Get("mtu")
            && settings.Get("reserved") == Obj(ReservedField(s.Param("reserved"))).Get("reserved")
            && settings.fields.Keys <= SETTINGS_KEYS
  {
    hide WireGuardPeer, WireGuardHead, ListField, NumberField, ReservedField;
    AlwaysFields(s);
    OptionalKeys("address", s.Param("localAddress"));
    OptionalKeys("mtu", s.Param("mtu"));
    OptionalKeys("reserved", s.Param("reserved"));
  }

  const PEER_KEYS: set<string> := {"endpoint", "publicKey", "preSharedKey", "allowedIPs", "keepAlive"}

  const SETTINGS_KEYS: set<string> :=
    {"secretKey", "peers", "domainStrategy", "noKernelTun", "address", "mtu", "reserved"}

  /** The addresses of the tunnel: those of the location, or one default. */
  function LocalAddress(s: Server): Json {
    var own := ListField("address", s.Param("localAddress"));
    if "address" in own then own["address"] else Arr([Str("10.0.0.1/32")])
  }

  lemma StreamedParsed(s: Server, dialled: Option<(string, nat)>)
    requires s.port < PORT_LIMIT && s.protocol != "wireguard"
    ensures ParseOutbound(BuiltOutbound(s), dialled) == if Readable(s) then Some(Canonical(s)) else None
  {
    hide StreamSettings, XrayNetwork, ApplyTls, ApplyReality, ApplyTransport, BuiltOutbound, ParseHead,
         SecurityParams, ReadPath, ReadMode, ReadParams, IsSentinel;
    HeadParsed(s, dialled);
    if Parsable(s) {
      StreamKeys(s);
      NetworkIsNormal(s.transport);
      var named := Head(s).(transport := XrayNetwork(s.transport), security := Security(s));
      SecurityRead(s, named);
      TransportRead(s,
                    ApplyTls(ApplyReality(named, Obj(StreamSettings(s)).Get("realitySettings")),
                             Obj(StreamSettings(s)).Get("tlsSettings")));
    }
  }

  lemma WithLooksUp(params: map<string, string>, key: string, value: Option<string>)
    ensures forall k :: Lookup(With(params, key, value), k) == if k == key && value.Some? then value
            else Lookup(params, k)
  {}

  lemma HeadParams(s: Server)
    ensures var params := Head(s).rawParams;
            && Lookup(params, "scy") == (if Kind(s) == "vmess" then Filled(Some(Or(s.Param("scy"), "auto"))) else None)
            && Lookup(params, "aid") == (if Kind(s) == "vmess" then Some(Decimal(AlterId(s))) else None)
            && forall key | key != "scy" && key != "aid" :: Lookup(params, key) == None
  {
    hide With, AlterId, Decimal, ReadUuid, ReadPassword;
    var scy := Filled(Some(Or(s.Param("scy"), "auto")));
    WithLooksUp(map[], "scy", scy);
    WithLooksUp(With(map[], "scy", scy), "aid", Some(Decimal(AlterId(s))));
  }

  lemma SecurityParamsHold(s: Server)
    ensures forall key :: Lookup(SecurityParams(s), key) ==
              if key == "spx" then ReadSpx(s) else if key == "alpn" then ReadAlpn(s) else Lookup(Head(s).rawParams, key)
  {
    hide With, Head, ReadSpx, ReadAlpn, Kind;
    assert Lookup(Head(s).rawParams, "spx") == None && Lookup(Head(s).rawParams, "alpn") == None by { HeadParams(s); }
    WithLooksUp(Head(s).rawParams, "spx", ReadSpx(s));
    WithLooksUp(With(Head(s).rawParams, "spx", ReadSpx(s)), "alpn", ReadAlpn(s));
  }

  lemma CanonicalFields(s: Server)
    ensures var c := Canonical(s);
            c.rawParams == ReadParams(s) && c.path == ReadPath(s) && c.mode == ReadMode(s)
              && c.transport == XrayNetwork(s.transport)
  {
    hide Head, ReadParams, XrayNetwork, ReadPath, ReadMode;
  }

  /** The raw parameters of the canonical form, one by one. */
  lemma CanonicalParams(s: Server)
    ensures var c, network := Canonical(s), XrayNetwork(s.transport);
            && c.Param("scy") == (if Kind(s) == "vmess" then Filled(Some(Or(s.Param("scy"), "auto"))) else None)
            && c.Param("aid") == (if Kind(s) == "vmess" then Some(Decimal(AlterId(s))) else None)
            && c.Param("spx") == ReadSpx(s) && c.Param("alpn") == ReadAlpn(s)
            && c.Param("host") == (if network == "ws" || network == "httpupgrade" then s.Given("host")
                                   else if network == "xhttp" then JsonStr(Obj(XhttpSettings(s)), "host") else None)
            && (network == "grpc" ==>
                c.Param("serviceName") == Filled(s.Param("serviceName"))
                  && c.Param("authority") == s.Given("authority"))
            && c.Param("headerType") == None && c.Param("seed") == None
  {
    hide With, Lookup, Head, Canonical, SecurityParams, Kind, XrayNetwork, ReadSpx, ReadAlpn, XhttpSettings, AlterId,
         Decimal, JsonStr, Filled, Or;
    var params := SecurityParams(s);
    CanonicalFields(s);
    HeadParams(s);
    SecurityParamsHold(s);
    if XrayNetwork(s.transport) == "xhttp" {
      WithLooksUp(params, "host", JsonStr(Obj(XhttpSettings(s)), "host"));
    } else if XrayNetwork(s.transport) == "grpc" {
      WithLooksUp(params, "serviceName", Filled(s.Param("serviceName")));
      WithLooksUp(With(params, "serviceName", Filled(s.Param("serviceName"))), "authority", s.Given("authority"));
    } else {
      WithLooksUp(params, "host", s.Given("host"));
    }
  }

  /** What the head of a location must be like for its outbound to be rebuilt. */
  predicate HeadFaithful(s: Server) {
    && (Kind(s) == "vmess" ==> s.Param("scy") != Some(""))
    && (Kind(s) == "http" || Kind(s) == "socks" ==>
        Trim(s.uuid) == s.uuid && Trim(Or(s.password, "")) == Or(s.password, ""))
  }

  predicate SecurityFaithful(s: Server) {
    && (s.security == "reality" ==> s.Param("spx") != Some(""))
    && (s.security == "tls" && s.Given("alpn").Some? ==> SplitList(s.Given("alpn").value) != [])
  }

  predicate IsText(fields: map<string, Json>, key: string) {
    key in fields && fields[key].Str? && fields[key].text != ""
  }

  /** Nothing beside a path, a mode and perhaps a host, all of them texts. */
  predicate XhttpPlain(s: Server) {
    var xhttp := XhttpSettings(s);
    xhttp.Keys <= {"path", "mode", "host"} && IsText(xhttp, "path") && IsText(xhttp, "mode")
      && ("host" in xhttp ==> IsText(xhttp, "host"))
  }

  predicate TransportFaithful(s: Server) {
    var network := XrayNetwork(s.transport);
    if network == "xhttp" then XhttpPlain(s)
    else if network == "ws" || network == "httpupgrade" then s.path != Some("")
    else if network == "grpc" then true
    else if network == "http" then Or(s.path, "/") == "/" && s.Given("host") == None
    else if network == "kcp" then Or(s.Param("headerType"), "none") == "none" && s.Given("seed") == None
    else if network == "hysteria" then ReadUuid(s) == s.uuid
    else s.Param("headerType") != Some("http")
  }

  lemma VmessRebuilt(s: Server)
    requires Kind(s) == "vmess"
    ensures VmessUser(Canonical(s)) == VmessUser(s) <==> s.Param("scy") != Some("")
  {
    hide Decimal, ParseBelow, ReadParams;
    CanonicalParams(s);
    ParseDecimal(AlterId(s), 0x1_0000_0000);
    assert VmessUser(s)["security"] == Str(Or(s.Param("scy"), "auto"));
    assert VmessUser(Canonical(s))["security"] == Str(Or(Canonical(s).Param("scy"), "auto"));
  }

  lemma SimpleRebuilt(s: Server)
    requires Kind(s) == "http" || Kind(s) == "socks"
    ensures SimpleSettings(Canonical(s)) == SimpleSettings(s) <==>
              Trim(s.uuid) == s.uuid && Trim(Or(s.password, "")) == Or(s.password, "")
  {
    hide Trim, ReadParams, SimpleSettings, XrayNetwork, ReadPath, ReadMode;
    TrimEmpty();
    var c := Canonical(s);
    SimpleEqual(c, s);
    assert c.uuid == Trim(s.uuid) && c.password == TrimmedPassword(s.password);
  }

  lemma SimpleEqual(c: Server, s: Server)
    requires Endpoint(c) == Endpoint(s)
    ensures SimpleSettings(c) == SimpleSettings(s) <==> c.uuid == s.uuid && Filled(c.password) == Filled(s.password)
  {
    hide SimpleSettings;
    SimpleFields(c);
    SimpleFields(s);
    if c.uuid == s.uuid && Filled(c.password) == Filled(s.password) {
      SimpleSame(c, s);
    }
  }

  lemma SimpleSame(c: Server, s: Server)
    requires Endpoint(c) == Endpoint(s) && c.uuid == s.uuid && Filled(c.password) == Filled(s.password)
    ensures SimpleSettings(c) == SimpleSettings(s)
  {}

  lemma OneUser(s: Server, t: Server, user: map<string, Json>, other: map<string, Json>)
    requires Endpoint(s) == Endpoint(t)
    ensures var entry := Endpoint(s)["users" := Arr([Obj(user)])];
            var otherEntry := Endpoint(t)["users" := Arr([Obj(other)])];
            OneOf("vnext", entry) == OneOf("vnext", otherEntry) <==> user == other
  {
    var entry, otherEntry := Endpoint(s)["users" := Arr([Obj(user)])], Endpoint(t)["users" := Arr([Obj(other)])];
    if OneOf("vnext", entry) == OneOf("vnext", otherEntry) {
      assert OneOf("vnext", entry)["vnext"].items[0] == OneOf("vnext", otherEntry)["vnext"].items[0];
      assert entry["users"].items[0] == otherEntry["users"].items[0];
    }
  }

  lemma CanonicalKind(s: Server)
    requires s.protocol != "wireguard"
    ensures Kind(Canonical(s)) == Kind(s) == Canonical(s).protocol && Endpoint(Canonical(s)) == Endpoint(s)
  {
    hide ReadParams, ReadUuid, ReadPassword, ReadPath, ReadMode, XrayNetwork;
  }

  lemma HeadRebuilt(s: Server)
    requires s.protocol != "wireguard" && Readable(s)
    ensures ProxySettings(Canonical(s)) == ProxySettings(s) <==> HeadFaithful(s)
  {
    hide ReadParams, VmessUser, SimpleSettings, XrayNetwork, ReadPath, ReadMode, IsSentinel, Trim, WireGuardSettings;
    var c := Canonical(s);
    CanonicalKind(s);
    if Kind(s) == "vmess" {
      VmessRebuilt(s);
      OneUser(c, s, VmessUser(c), VmessUser(s));
    } else if Kind(s) == "http" || Kind(s) == "socks" {
      SimpleRebuilt(s);
    } else if Kind(s) == "vless" {
      assert VlessUser(c) == VlessUser(s);
    } else if Kind(s) == "trojan" {
      assert TrojanServer(c) == TrojanServer(s);
    } else if Kind(s) == "shadowsocks" {
      assert ShadowsocksServer(c) == ShadowsocksServer(s);
    }
  }

  lemma AlpnRebuilt(s: Server)
    requires s.security == "tls"
    ensures Alpn(Canonical(s)) == Alpn(s) <==> (s.Given("alpn").Some? ==> SplitList(s.Given("alpn").value) != [])
  {
    hide ReadParams, SplitList, JoinWith, Head, XrayNetwork, ReadPath, ReadMode;
    CanonicalParams(s);
    if s.Given("alpn").Some? && SplitList(s.Given("alpn").value) != [] {
      SplitListJoin(s.Given("alpn").value);
    }
  }

  lemma NamesRebuilt(s: Server)
    requires s.host != "" && Security(s) != "none"
    ensures ServerName(Canonical(s)) == ServerName(s) && Fingerprint(Canonical(s)) == Fingerprint(s)
    ensures s.security == "reality" ==>
              Or(Canonical(s).publicKey, "") == Or(s.publicKey, "") && Or(Canonical(s).shortId, "") == Or(s.shortId, "")
  {
    hide ReadParams, XrayNetwork, ReadPath, ReadMode, ReadUuid, ReadPassword;
  }

  lemma SecurityRebuilt(s: Server)
    requires s.host != ""
    ensures SecurityFields(Canonical(s)) == SecurityFields(s) <==> SecurityFaithful(s)
  {
    hide ReadParams, XrayNetwork, Head, ReadPath, ReadMode, ServerName, Fingerprint, Alpn, SplitList;
    var c := Canonical(s);
    assert c.security == Security(s);
    if s.security == "reality" {
      NamesRebuilt(s);
      CanonicalParams(s);
      RealityEqual(c, s);
    } else if s.security == "tls" {
      NamesRebuilt(s);
      AlpnRebuilt(s);
      TlsEqual(c, s);
    }
  }

  lemma RealityEqual(c: Server, s: Server)
    requires ServerName(c) == ServerName(s) && Fingerprint(c) == Fingerprint(s)
    requires Or(c.publicKey, "") == Or(s.publicKey, "") && Or(c.shortId, "") == Or(s.shortId, "")
    requires c.security == s.security == "reality"
    ensures SecurityFields(c) == SecurityFields(s) <==> Or(c.Param("spx"), "/") == Or(s.Param("spx"), "/")
  {
    hide ServerName, Fingerprint;
    assert SecurityFields(c)["realitySettings"] == Obj(RealitySettings(c))
           && SecurityFields(s)["realitySettings"] == Obj(RealitySettings(s));
    assert RealitySettings(c)["spiderX"] == Str(Or(c.Param("spx"), "/"))
           && RealitySettings(s)["spiderX"] == Str(Or(s.Param("spx"), "/"));
  }

  lemma TlsEqual(c: Server, s: Server)
    requires ServerName(c) == ServerName(s) && Fingerprint(c) == Fingerprint(s) && c.security == s.security == "tls"
    ensures SecurityFields(c) == SecurityFields(s) <==> Alpn(c) == Alpn(s)
  {
    hide ServerName, Fingerprint, Alpn;
    assert SecurityFields(c)["tlsSettings"] == Obj(TlsSettings(c))
           && SecurityFields(s)["tlsSettings"] == Obj(TlsSettings(s));
    assert Obj(TlsSettings(c)).Get("alpn") == Alpn(c) && Obj(TlsSettings(s)).Get("alpn") == Alpn(s);
  }

  /** The blocks of two locations over the same network agree exactly when their settings do. */
  lemma BlocksEqual(c: Server, s: Server, network: string)
    ensures TransportFields(c, network) == TransportFields(s, network) <==>
              (if network == "xhttp" then XhttpSettings(c) == XhttpSettings(s)
               else if network == "ws" then WsSettings(c) == WsSettings(s)
               else if network == "httpupgrade" then HttpUpgradeSettings(c) == HttpUpgradeSettings(s)
               else if network == "grpc" then GrpcSettings(c) == GrpcSettings(s)
               else if network == "http" then HttpSettings(c) == HttpSettings(s)
               else if network == "kcp" then KcpSettings(c) == KcpSettings(s)
               else if network == "hysteria" then c.uuid == s.uuid
               else if c.Param("headerType") == Some("http") && s.Param("headerType") == Some("http")
                 then FakeHttpRequest(c) == FakeHttpRequest(s)
               else (c.Param("headerType") == Some("http") <==> s.Param("headerType") == Some("http")))
  {
    hide XhttpSettings, WsSettings, HttpUpgradeSettings, GrpcSettings, HttpSettings, KcpSettings, FakeHttpRequest;
    var left, right := Obj(TransportFields(c, network)), Obj(TransportFields(s, network));
    if left == right {
      assert left.Get("xhttpSettings") == right.Get("xhttpSettings")
             && left.Get("wsSettings") == right.Get("wsSettings");
      assert left.Get("httpupgradeSettings") == right.Get("httpupgradeSettings")
             && left.Get("grpcSettings") == right.Get("grpcSettings");
      assert left.Get("httpSettings") == right.Get("httpSettings")
             && left.Get("kcpSettings") == right.Get("kcpSettings");
      assert left.Get("tcpSettings") == right.Get("tcpSettings");
      if network == "hysteria" {
        assert left.Get("hysteriaSettings").value.Get("auth") == right.Get("hysteriaSettings").value.Get("auth");
      }
      if left.Get("tcpSettings").Some? {
        assert left.Get("tcpSettings").value.Get("header").value.Get("request")
               == right.Get("tcpSettings").value.Get("header").value.Get("request");
      }
    }
  }

  lemma WithoutExtra(c: Server)
    requires c.extra.None?
    ensures XhttpSettings(c)
            == map["path" := Str(Or(c.path, "/")), "mode" := Str(Or(c.mode, "auto"))]
              + StrField("host", c.Given("host"))
  {}

  /** What is read of some settings and written again is those settings, exactly when they are plain. */
  lemma PlainXhttp(own: map<string, Json>)
    requires "path" in own && "mode" in own
    ensures var settings := Obj(own);
            var read := map["path" := Str(Or(JsonStr(settings, "path"), "/")),
                            "mode" := Str(Or(JsonStr(settings, "mode"), "auto"))]
                        + StrField("host", JsonStr(settings, "host"));
            read == own <==>
              && own.Keys <= {"path", "mode", "host"}
              && IsText(own, "path") && IsText(own, "mode") && ("host" in own ==> IsText(own, "host"))
  {
    var settings := Obj(own);
    var read := map["path" := Str(Or(JsonStr(settings, "path"), "/")),
                    "mode" := Str(Or(JsonStr(settings, "mode"), "auto"))]
                + StrField("host", JsonStr(settings, "host"));
    if read == own {
      assert own["path"] == read["path"] && own["mode"] == read["mode"];
      assert "host" in own ==> own["host"] == read["host"];
    }
    assert own.Keys <= {"path", "mode", "host"} && ("host" in own ==> IsText(own, "host")) ==> own.Keys == read.Keys;
  }

  lemma XhttpKeys(s: Server)
    ensures "path" in XhttpSettings(s) && "mode" in XhttpSettings(s)
  {}

  lemma XhttpRebuilt(s: Server)
    requires XrayNetwork(s.transport) == "xhttp"
    ensures XhttpSettings(Canonical(s)) == XhttpSettings(s) <==> XhttpPlain(s)
  {
    hide Canonical, XrayNetwork, XhttpSettings, Lookup, IsText;
    CanonicalParams(s);
    CanonicalFields(s);
    CanonicalPort(s);
    WithoutExtra(Canonical(s));
    XhttpKeys(s);
    PlainXhttp(XhttpSettings(s));
  }

  lemma PathsEqual(c: Server, s: Server)
    requires c.Given("host") == s.Given("host")
    ensures WsSettings(c) == WsSettings(s) <==> Or(c.path, "/") == Or(s.path, "/")
    ensures HttpUpgradeSettings(c) == HttpUpgradeSettings(s) <==> Or(c.path, "/") == Or(s.path, "/")
  {
    hide Or, Filled, Lookup;
    assert WsSettings(c)["path"] == Str(Or(c.path, "/")) && WsSettings(s)["path"] == Str(Or(s.path, "/"));
    assert HttpUpgradeSettings(c)["path"] == Str(Or(c.path, "/"))
           && HttpUpgradeSettings(s)["path"] == Str(Or(s.path, "/"));
  }

  lemma PathsRebuilt(s: Server)
    requires XrayNetwork(s.transport) in {"ws", "httpupgrade"}
    ensures WsSettings(Canonical(s)) == WsSettings(s) <==> s.path != Some("")
    ensures HttpUpgradeSettings(Canonical(s)) == HttpUpgradeSettings(s) <==> s.path != Some("")
  {
    hide Canonical, XrayNetwork, WsSettings, HttpUpgradeSettings, Lookup, XhttpSettings;
    CanonicalParams(s);
    CanonicalFields(s);
    PathsEqual(Canonical(s), s);
  }

  lemma GrpcRebuilt(s: Server)
    requires XrayNetwork(s.transport) == "grpc"
    ensures GrpcSettings(Canonical(s)) == GrpcSettings(s)
  {
    hide ReadParams, Head, XrayNetwork, ReadPath;
    CanonicalParams(s);
    assert Canonical(s).mode == ReadMode(s);
  }

  lemma HttpRebuilt(s: Server)
    requires XrayNetwork(s.transport) == "http"
    ensures HttpSettings(Canonical(s)) == HttpSettings(s) <==> Or(s.path, "/") == "/" && s.Given("host") == None
  {
    hide ReadParams, Head, XrayNetwork, SplitList, ReadMode;
    CanonicalParams(s);
    var c := Canonical(s);
    assert HttpSettings(c)["path"] == Str("/") && HttpSettings(s)["path"] == Str(Or(s.path, "/"));
    assert "host" in HttpSettings(s) <==> s.Given("host").Some?;
    assert "host" !in HttpSettings(c);
  }

  lemma KcpRebuilt(s: Server)
    requires XrayNetwork(s.transport) == "kcp"
    ensures KcpSettings(Canonical(s)) == KcpSettings(s) <==>
              Or(s.Param("headerType"), "none") == "none" && s.Given("seed") == None
  {
    hide ReadParams, Head, XrayNetwork, ReadMode, ReadPath;
    CanonicalParams(s);
    var c := Canonical(s);
    assert KcpSettings(c)["header"].fields["type"] == Str("none")
           && KcpSettings(s)["header"].fields["type"] == Str(Or(s.Param("headerType"), "none"));
    assert "seed" in KcpSettings(s) <==> s.Given("seed").Some?;
    assert "seed" !in KcpSettings(c);
  }

  lemma TransportRebuilt(s: Server)
    ensures var network := XrayNetwork(s.transport);
            TransportFields(Canonical(s), network) == TransportFields(s, network) <==> TransportFaithful(s)
  {
    hide ReadParams, XrayNetwork, ReadPath, ReadMode, TransportFields, XhttpSettings, WsSettings, HttpUpgradeSettings,
         GrpcSettings, HttpSettings, KcpSettings, FakeHttpRequest, XhttpPlain, ReadUuid;
    var network := XrayNetwork(s.transport);
    BlocksEqual(Canonical(s), s, network);
    CanonicalParams(s);
    if network == "xhttp" {
      XhttpRebuilt(s);
    } else if network == "ws" || network == "httpupgrade" {
      PathsRebuilt(s);
    } else if network == "grpc" {
      GrpcRebuilt(s);
    } else if network == "http" {
      HttpRebuilt(s);
    } else if network == "kcp" {
      KcpRebuilt(s);
    }
  }

  const SECURITY_KEYS: set<string> := {"security", "realitySettings", "tlsSettings"}

  /** Where each field of the stream settings comes from. */
  lemma StreamLookups(s: Server)
    ensures var stream, transport := Obj(StreamSettings(s)), TransportFields(s, XrayNetwork(s.transport));
            && (forall key | key in SECURITY_KEYS :: stream.Get(key) == Obj(SecurityFields(s)).Get(key))
            && (forall key | key !in SECURITY_KEYS && key != "network" :: stream.Get(key) == Obj(transport).Get(key))
            && SecurityFields(s).Keys <= SECURITY_KEYS && transport.Keys !! SECURITY_KEYS + {"network"}
  {
    hide XrayNetwork, TransportFields, RealitySettings, TlsSettings;
    TransportKeys(s, XrayNetwork(s.transport));
  }

  /** Stream settings over the same network agree exactly when both their parts do. */
  lemma StreamInParts(c: Server, s: Server)
    requires XrayNetwork(c.transport) == XrayNetwork(s.transport)
    ensures StreamSettings(c) == StreamSettings(s) <==>
              SecurityFields(c) == SecurityFields(s)
                && TransportFields(c, XrayNetwork(s.transport)) == TransportFields(s, XrayNetwork(s.transport))
  {
    hide XrayNetwork, TransportFields, SecurityFields;
    if StreamSettings(c) == StreamSettings(s) {
      hide StreamSettings;
      var network := XrayNetwork(s.transport);
      StreamLookups(c);
      StreamLookups(s);
      forall key
        ensures Obj(TransportFields(c, network)).Get(key) == Obj(TransportFields(s, network)).Get(key)
      {
        assert key in SECURITY_KEYS + {"network"} ==>
                 key !in TransportFields(c, network) && key !in TransportFields(s, network);
      }
      SameLookups(SecurityFields(c), SecurityFields(s), SECURITY_KEYS);
      SameLookups(TransportFields(c, network), TransportFields(s, network),
                  TransportFields(c, network).Keys + TransportFields(s, network).Keys);
    }
  }

  lemma SameLookups(a: map<string, Json>, b: map<string, Json>, keys: set<string>)
    requires a.Keys <= keys && b.Keys <= keys
    requires forall key | key in keys :: Obj(a).Get(key) == Obj(b).Get(key)
    ensures a == b
  {
    forall key | key in keys
      ensures key in a <==> key in b
      ensures key in a ==> a[key] == b[key]
    {
      assert Obj(a).Get(key) == Obj(b).Get(key);
    }
    assert a.Keys == b.Keys;
  }

  /** What it takes for the outbound of a location to survive being read and built again. */
  predicate Faithful(s: Server) {
    HeadFaithful(s) && SecurityFaithful(s) && TransportFaithful(s)
  }

  lemma StreamedEqual(c: Server, s: Server)
    requires s.protocol != "wireguard" && c.protocol != "wireguard" && Kind(c) == Kind(s)
    ensures BuiltOutbound(c) == BuiltOutbound(s) <==>
              ProxySettings(c) == ProxySettings(s) && StreamSettings(c) == StreamSettings(s)
  {
    hide ProxySettings, StreamSettings;
    if BuiltOutbound(c) == BuiltOutbound(s) {
      assert BuiltOutbound(c).Get("settings") == BuiltOutbound(s).Get("settings");
      assert BuiltOutbound(c).Get("streamSettings") == BuiltOutbound(s).Get("streamSettings");
    }
  }

  /** What it takes for a peer: nothing but the endpoint and the private key is set, and the endpoint reads back. */
  predicate PeerFaithful(s: Server, dialled: (string, nat)) {
    && EndpointText(dialled.0, dialled.1) == EndpointText(s.host, s.port)
    && Or(s.publicKey, "") == ""
    && s.Given("preSharedKey").None?
    && ListField("allowedIPs", s.Param("allowedIPs")) == map[]
    && NumberField("keepAlive", s.Param("keepAlive")) == map[]
    && Or(s.Param("domainStrategy"), "ForceIP") == "ForceIP"
    && LocalAddress(s) == Arr([Str("10.0.0.1/32")])
    && NumberField("mtu", s.Param("mtu")) == map[]
    && ReservedField(s.Param("reserved")) == map[]
  }

  predicate RoundTrips(s: Server, dialled: Option<(string, nat)>) {
    if s.protocol == "wireguard" then
      dialled.Some? && !IsSentinel(dialled.value.0) && PeerFaithful(s, dialled.value)
    else Readable(s) && Faithful(s)
  }

  lemma PlainPeer(s: Server, dialled: (string, nat))
    ensures var c := Peer(s, dialled);
            && c.Given("preSharedKey").None?
            && ListField("allowedIPs", c.Param("allowedIPs")) == map[]
            && NumberField("keepAlive", c.Param("keepAlive")) == map[]
            && Or(c.Param("domainStrategy"), "ForceIP") == "ForceIP"
            && LocalAddress(c) == Arr([Str("10.0.0.1/32")])
            && NumberField("mtu", c.Param("mtu")) == map[]
            && ReservedField(c.Param("reserved")) == map[]
  {}

  lemma PeerRebuilt(s: Server, dialled: (string, nat))
    requires s.protocol == "wireguard"
    ensures BuiltOutbound(Peer(s, dialled)) == BuiltOutbound(s) <==> PeerFaithful(s, dialled)
  {
    hide EndpointText, ListField, NumberField, ReservedField, WireGuardPeer, WireGuardSettings, LocalAddress;
    var c := Peer(s, dialled);
    PlainPeer(s, dialled);
    PeerFields(c);
    PeerFields(s);
    SettingsFields(c);
    SettingsFields(s);
    FieldNamed(s);
    if BuiltOutbound(c) == BuiltOutbound(s) {
      assert BuiltOutbound(c).Get("settings") == BuiltOutbound(s).Get("settings");
      assert Obj(WireGuardSettings(c)).Get("peers").value.items[0]
             == Obj(WireGuardSettings(s)).Get("peers").value.items[0];
    } else if PeerFaithful(s, dialled) {
      SameLookups(WireGuardPeer(c), WireGuardPeer(s), PEER_KEYS);
      SameLookups(WireGuardSettings(c), WireGuardSettings(s), SETTINGS_KEYS);
    }
  }

  /** An optional field is absent exactly when it cannot be looked up. */
  lemma FieldNamed(s: Server)
    ensures var psk := s.Given("preSharedKey");
            Obj(StrField("preSharedKey", psk)).Get("preSharedKey").None? <==> psk.None?
    ensures var allowed := ListField("allowedIPs", s.Param("allowedIPs"));
            Obj(allowed).Get("allowedIPs").None? <==> allowed == map[]
    ensures var alive := NumberField("keepAlive", s.Param("keepAlive"));
            Obj(alive).Get("keepAlive").None? <==> alive == map[]
    ensures var mtu := NumberField("mtu", s.Param("mtu")); Obj(mtu).Get("mtu").None? <==> mtu == map[]
    ensures var reserved := ReservedField(s.Param("reserved"));
            Obj(reserved).Get("reserved").None? <==> reserved == map[]
  {
    hide ParseBelow, SplitList, Bytes, SplitOn;
  }

  /**
   Reading an outbound and building it again gives it back, exactly for the locations that are readable and
   faithful; a WireGuard location only if it has no public key, so never a usable one.
   */
  lemma RoundTripExactlyWhen(s: Server, dialled: Option<(string, nat)>)
    requires s.port < PORT_LIMIT
    ensures (match ParseOutbound(BuiltOutbound(s), dialled)
             case Some(read) => BuiltOutbound(read) == BuiltOutbound(s)
             case None => false) <==> RoundTrips(s, dialled)
  {
    hide ParseOutbound, BuiltOutbound, Canonical, Peer, Faithful, PeerFaithful, Readable, IsSentinel;
    ParseAfterBuild(s, dialled);
    if s.protocol != "wireguard" {
      StreamedRoundTrip(s, dialled);
    } else if dialled.Some? {
      PeerRebuilt(s, dialled.value);
    }
  }

  lemma StreamedRoundTrip(s: Server, dialled: Option<(string, nat)>)
    requires s.port < PORT_LIMIT && s.protocol != "wireguard"
    ensures (match ParseOutbound(BuiltOutbound(s), dialled)
             case Some(read) => BuiltOutbound(read) == BuiltOutbound(s)
             case None => false) <==> Readable(s) && Faithful(s)
  {
    hide ParseOutbound, BuiltOutbound, ProxySettings, StreamSettings, SecurityFields, TransportFields, HeadFaithful,
         SecurityFaithful,
         TransportFaithful, XrayNetwork, ReadParams, Kind;
    StreamedParsed(s, dialled);
    if Readable(s) {
      var c := Canonical(s);
      CanonicalKind(s);
      assert c.protocol != "wireguard" by { CanonicalNotWireGuard(s); }
      StreamedEqual(c, s);
      HeadRebuilt(s);
      assert XrayNetwork(c.transport) == XrayNetwork(s.transport) by { NetworkIsNormal(s.transport); }
      StreamInParts(c, s);
      SecurityRebuilt(s);
      TransportRebuilt(s);
    }
  }

  lemma CanonicalNotWireGuard(s: Server)
    requires s.protocol != "wireguard"
    ensures Canonical(s).protocol != "wireguard"
  {
    CanonicalKind(s);
  }

  /** A location that was read back once and survives a round trip is read back as itself from then on. */
  lemma CanonicalTwice(s: Server, dialled: Option<(string, nat)>)
    requires s.port < PORT_LIMIT && RoundTrips(s, dialled)
    ensures ReadBack(s, dialled).Some?
    ensures ReadBack(ReadBack(s, dialled).value, dialled) == ReadBack(s, dialled)
  {
    hide ParseOutbound, BuiltOutbound, Canonical, Faithful, Kind, IsSentinel, PeerFaithful, Readable;
    if s.protocol != "wireguard" {
      ParseAfterBuild(s, dialled);
      RoundTripExactlyWhen(s, dialled);
      CanonicalNotWireGuard(s);
      assert Canonical(s).port == s.port by { CanonicalPort(s); }
      ParseAfterBuild(Canonical(s), dialled);
    }
  }

  lemma CanonicalPort(s: Server)
    ensures Canonical(s).port == s.port && Canonical(s).extra.None?
  {
    hide ReadParams, ReadPath, ReadMode, ReadUuid, ReadPassword;
  }
}
