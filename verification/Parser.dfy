/**
 Back from an outbound to a location (src-tauri/src/subscription.rs, `parse_outbound`, `apply_stream`).
 */
module Parser {
  import opened Wrappers
  import opened Json
  import opened Text
  import opened Outbound

  const PORT_LIMIT := 0x1_0000

  /** A string field that is not empty. */
  function JsonStr(value: Json, key: string): Option<string> {
    Filled(value.GetStr(key))
  }

  function JsonStrIn(value: Option<Json>, key: string): Option<string> {
    if value.Some? then JsonStr(value.value, key) else None
  }

  /** The first of two fields that is a string with something in it, trimmed. */
  function JsonStrAny(value: Json, first: string, second: string): Option<string> {
    if value.GetStr(first).Some? && Trim(value.GetStr(first).value) != "" then Some(Trim(value.GetStr(first).value))
    else if value.GetStr(second).Some? && Trim(value.GetStr(second).value) != ""
      then Some(Trim(value.GetStr(second).value))
    else None
  }

  function JsonPort(value: Option<Json>): Option<nat> {
    match value
    case Some(Number(n)) => if 0 <= n < PORT_LIMIT then Some(n) else None
    case Some(Str(text)) => ParseBelow(text, PORT_LIMIT)
    case _ => None
  }

  function First(list: Option<seq<Json>>): Option<Json> {
    if list.Some? && list.value != [] then Some(list.value[0]) else None
  }

  /** The object with the endpoint: the settings themselves, or the first entry of a list in them. */
  function DirectOrFirst(settings: Option<Json>, key: string): Option<Json> {
    if settings.None? then None
    else if settings.value.Get("address").Some? then settings
    else First(settings.value.GetArr(key))
  }

  function NormalizeNetwork(network: string): string {
    if network == "raw" || network == "tcp" then "tcp"
    else if network == "splithttp" || network == "xhttp" then "xhttp"
    else if network == "h2" then "http"
    else network
  }

  function Base(protocol: string, host: string, port: nat): Server {
    Server(protocol, "", None, None, host, port, "tcp", "none", None, None, None, None, None, None, None, map[], None,
           None, None)
  }

  function With(params: map<string, string>, key: string, value: Option<string>): map<string, string> {
    if value.Some? then params[key := value.value] else params
  }

  function VlessOrVmess(protocol: string, settings: Option<Json>): Option<Server> {
    var endpoint := DirectOrFirst(settings, "vnext");
    if endpoint.None? then None
    else
      var host, port := JsonStr(endpoint.value, "address"), JsonPort(endpoint.value.Get("port"));
      var listed := First(endpoint.value.GetArr("users"));
      var user := if listed.Some? then listed.value else endpoint.value;
      if host.None? || port.None? || JsonStr(user, "id").None? then None
      else
        var s := Base(protocol, host.value, port.value).(
          uuid := JsonStr(user, "id").value, flow := JsonStr(user, "flow"));
        if protocol == "vmess" then
          var aid :=
            match user.Get("alterId")
            case Some(Number(n)) => if 0 <= n < 0x1_0000_0000_0000_0000 then Some(Decimal(n)) else None
            case _ => None;
          Some(s.(rawParams := With(With(map[], "scy", JsonStr(user, "security")), "aid", aid)))
        else Some(s)
  }

  function Trojan(settings: Option<Json>): Option<Server> {
    var server := DirectOrFirst(settings, "servers");
    if server.None? then None
    else
      var host, port := JsonStr(server.value, "address"), JsonPort(server.value.Get("port"));
      var password := JsonStr(server.value, "password");
      if host.None? || port.None? || password.None? then None
      else Some(Base("trojan", host.value, port.value).(
                  uuid := password.value, password := password, flow := JsonStr(server.value, "flow")))
  }

  function Shadowsocks(settings: Option<Json>): Option<Server> {
    var server := DirectOrFirst(settings, "servers");
    if server.None? then None
    else
      var host, port := JsonStr(server.value, "address"), JsonPort(server.value.Get("port"));
      if host.None? || port.None? then None
      else Some(Base("shadowsocks", host.value, port.value).(
                  cipher := JsonStr(server.value, "method"), password := JsonStr(server.value, "password")))
  }

  function Hysteria(settings: Option<Json>, stream: Option<Json>): Option<Server> {
    if settings.None? then None
    else
      var host, port := JsonStr(settings.value, "address"), JsonPort(settings.value.Get("port"));
      if host.None? || port.None? then None
      else
        var auth := if stream.Some? then JsonStrIn(stream.value.Get("hysteriaSettings"), "auth") else None;
        var uuid := Or(if auth.Some? then auth else JsonStr(settings.value, "auth"), "");
        Some(Base("hysteria", host.value, port.value).(uuid := uuid))
  }

  function HttpOrSocks(protocol: string, settings: Option<Json>): Option<Server> {
    var server := DirectOrFirst(settings, "servers");
    if server.None? then None
    else
      var host, port := JsonStr(server.value, "address"), JsonPort(server.value.Get("port"));
      var listed := First(server.value.GetArr("users"));
      var user := if listed.Some? then listed.value else server.value;
      if host.None? || port.None? then None
      else Some(Base(protocol, host.value, port.value).(
                  uuid := Or(JsonStrAny(user, "user", "username"), ""),
                  password := JsonStrAny(user, "pass", "password")))
  }

  /** `dialled` is what the endpoint text of the WireGuard peer parses to. */
  function WireGuard(settings: Option<Json>, dialled: Option<(string, nat)>): Option<Server> {
    if settings.None? then None
    else
      var peer := First(settings.value.GetArr("peers"));
      if peer.None? || JsonStr(peer.value, "endpoint").None? || dialled.None? then None
      else Some(Base("wireguard", dialled.value.0, dialled.value.1).(
                  uuid := Or(JsonStr(settings.value, "secretKey"), ""), transport := "wireguard"))
  }

  /** The location without its stream settings. */
  function ParseHead(outbound: Json, dialled: Option<(string, nat)>): Option<Server> {
    var protocol, settings := Or(outbound.GetStr("protocol"), ""), outbound.Get("settings");
    if protocol == "vless" || protocol == "vmess" then VlessOrVmess(protocol, settings)
    else if protocol == "trojan" then Trojan(settings)
    else if protocol == "shadowsocks" then Shadowsocks(settings)
    else if protocol == "hysteria" then Hysteria(settings, outbound.Get("streamSettings"))
    else if protocol == "wireguard" then WireGuard(settings, dialled)
    else if protocol == "http" || protocol == "socks" then HttpOrSocks(protocol, settings)
    else None
  }

  function Texts(items: seq<Json>): seq<string> {
    if items == [] then [] else (if items[0].Str? then [items[0].text] else []) + Texts(items[1..])
  }

  function ApplyReality(s: Server, reality: Option<Json>): Server {
    if reality.None? then s
    else s.(sni := JsonStr(reality.value, "serverName"),
            publicKey := JsonStr(reality.value, "publicKey"),
            shortId := JsonStr(reality.value, "shortId"),
            fingerprint := JsonStr(reality.value, "fingerprint"),
            rawParams := With(s.rawParams, "spx", JsonStr(reality.value, "spiderX")))
  }

  function ApplyTls(s: Server, tls: Option<Json>): Server {
    if tls.None? then s
    else
      var insecure := if tls.value.Get("allowInsecure") == Some(Bool(true)) then Some("1") else None;
      var alpn := match tls.value.GetArr("alpn") case Some(items) => Texts(items) case None => [];
      s.(sni := if s.sni.Some? then s.sni else JsonStr(tls.value, "serverName"),
         fingerprint := if s.fingerprint.Some? then s.fingerprint else JsonStr(tls.value, "fingerprint"),
         rawParams := With(With(s.rawParams, "allowInsecure", insecure), "alpn",
                           if alpn != [] then Some(JoinWith(alpn, ',')) else None))
  }

  function ApplyWs(s: Server, ws: Option<Json>): Server {
    if ws.None? then s
    else
      var headers := ws.value.Get("headers");
      s.(path := JsonStr(ws.value, "path"),
         rawParams := With(s.rawParams, "host", if headers.Some? then headers.value.GetStr("Host") else None))
  }

  function ApplyXhttp(s: Server, xhttp: Option<Json>): Server {
    if xhttp.None? then s
    else s.(path := JsonStr(xhttp.value, "path"), mode := JsonStr(xhttp.value, "mode"),
            rawParams := With(s.rawParams, "host", JsonStr(xhttp.value, "host")))
  }

  function ApplyHttpUpgrade(s: Server, upgrade: Option<Json>): Server {
    if upgrade.None? then s
    else s.(path := JsonStr(upgrade.value, "path"),
            rawParams := With(s.rawParams, "host", JsonStr(upgrade.value, "host")))
  }

  function ApplyGrpc(s: Server, grpc: Option<Json>): Server {
    if grpc.None? then s
    else s.(mode := if grpc.value.Get("multiMode") == Some(Bool(true)) then Some("multi") else s.mode,
            rawParams := With(With(s.rawParams, "serviceName", JsonStr(grpc.value, "serviceName")), "authority",
                              JsonStr(grpc.value, "authority")))
  }

  function ApplyTransport(s: Server, stream: Json): Server {
    if s.transport == "ws" then ApplyWs(s, stream.Get("wsSettings"))
    else if s.transport == "xhttp" then
      ApplyXhttp(s, if stream.Get("xhttpSettings").Some? then stream.Get("xhttpSettings")
                 else stream.Get("splithttpSettings"))
    else if s.transport == "httpupgrade" then ApplyHttpUpgrade(s, stream.Get("httpupgradeSettings"))
    else if s.transport == "grpc" then ApplyGrpc(s, stream.Get("grpcSettings"))
    else s
  }

  function ApplyStream(s: Server, stream: Option<Json>): Server {
    if stream.None? then s
    else
      var network := stream.value.GetStr("network");
      var named := s.(transport := if network.Some? then NormalizeNetwork(network.value) else s.transport,
                      security := Or(stream.value.GetStr("security"), "none"));
      ApplyTransport(ApplyTls(ApplyReality(named, stream.value.Get("realitySettings")),
                              stream.value.Get("tlsSettings")), stream.value)
  }

  /** A host some providers use for an entry that is no server. */
  predicate IsSentinel(host: string) {
    Lower(Trim(host)) == "balancer.host"
  }

  function ParseOutbound(outbound: Json, dialled: Option<(string, nat)>): Option<Server> {
    match ParseHead(outbound, dialled)
    case None => None
    case Some(head) =>
      var s := ApplyStream(head, outbound.Get("streamSettings"));
      if IsSentinel(s.host) then None else Some(s)
  }
}
