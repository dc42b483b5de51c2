/**
 The privileged service's view of a client configuration: what it accepts, and how it adapts an
 accepted configuration to the physical adapter (crates/varmlen-service-core/src/runtime.rs).
 */
module Runtime {
  import opened Wrappers
  import opened Json
  import opened Text

  const TUN_ADAPTER_NAME := "Varmlen"
  const TUN_ADAPTER_DESCRIPTION := "Varmlen"
  const TUN_IPV4_GATEWAY := "10.255.0.1/30"
  const TUN_IPV6_GATEWAY := "fd00:7661:726d:6c65::1/64"
  const TUN_DNS := "1.1.1.1"
  const IPV4_DEFAULT := "0.0.0.0/0"
  const IPV6_DEFAULT := "::/0"

  const NATIVE_FIELDS: set<string> :=
    {"log", "dns", "inbounds", "outbounds", "routing", "observatory", "burstObservatory"}
  const FILE_KEYS: set<string> := {"file", "certificatefile", "keyfile", "cafile", "certfile"}
  const STRIPPED_FIELDS: set<string> := {"desc", "gateway", "dns", "autoSystemRoutingTable", "autoOutboundsInterface"}

  datatype ConfigError =
    | NotAnObject
    | UnsupportedField
    | LogNotAnObject
    | LogFilePath
    | FileReference
    | BadInbounds
    | BadTun
    | BadInterfaceName
    | BadOutbound
    | BadSocks
    | BadPorts

  /** No key anywhere in the value names a file the privileged service would open. */
  predicate NoFileReferences(value: Json) {
    match value
    case Obj(fields) => forall key | key in fields :: Lower(key) !in FILE_KEYS && NoFileReferences(fields[key])
    case Arr(items) => forall i | 0 <= i < |items| :: NoFileReferences(items[i])
    case _ => true
  }

  predicate LogAllowed(root: map<string, Json>) {
    "log" in root ==> root["log"].Obj? && root["log"].fields.Keys <= {"loglevel"}
  }

  predicate IsTun(inbound: Json) {
    inbound.GetStr("protocol") == Some("tun")
  }

  /** A non-empty array of non-empty strings that contains `wanted`. */
  predicate StringArrayWith(value: Option<Json>, wanted: string) {
    && value.Some?
    && value.value.Arr?
    && value.value.items != []
    && (forall i | 0 <= i < |value.value.items| :: value.value.items[i].Str? && value.value.items[i].text != "")
    && Str(wanted) in value.value.items
  }

  predicate TunSettingsAllowed(settings: Json) {
    && settings.Obj?
    && settings.GetStr("name") == Some(TUN_ADAPTER_NAME)
    && settings.GetStr("desc") == Some(TUN_ADAPTER_DESCRIPTION)
    && StringArrayWith(settings.Get("gateway"), TUN_IPV4_GATEWAY)
    && StringArrayWith(settings.Get("gateway"), TUN_IPV6_GATEWAY)
    && StringArrayWith(settings.Get("dns"), TUN_DNS)
    && StringArrayWith(settings.Get("autoSystemRoutingTable"), IPV4_DEFAULT)
    && StringArrayWith(settings.Get("autoSystemRoutingTable"), IPV6_DEFAULT)
    && settings.GetStr("autoOutboundsInterface") == Some("auto")
  }

  /** What the service demands of a native TUN configuration before it touches the network. */
  function InspectNativeTunConfig(config: Json): Outcome<ConfigError> {
    if !config.Obj? then Failed(NotAnObject)
    else if !(config.fields.Keys <= NATIVE_FIELDS) then Failed(UnsupportedField)
    else if "log" in config.fields && !config.fields["log"].Obj? then Failed(LogNotAnObject)
    else if !LogAllowed(config.fields) then Failed(LogFilePath)
    else if !NoFileReferences(config) then Failed(FileReference)
    else match config.GetArr("inbounds")
      case None => Failed(BadInbounds)
      case Some(inbounds) =>
        if |inbounds| != 1 || !IsTun(inbounds[0]) then Failed(BadInbounds)
        else match inbounds[0].Get("settings")
          case None => Failed(BadTun)
          case Some(settings) => if TunSettingsAllowed(settings) then Done else Failed(BadTun)
  }

  predicate ValidInterfaceName(name: string) {
    && name != ""
    && Utf8Length(name) <= 256
    && forall i | 0 <= i < |name| :: !IsControl(name[i])
  }

  /** An outbound that opens no socket of its own. */
  predicate IsOffline(outbound: Json) {
    outbound.GetStr("protocol") == Some("blackhole") || outbound.GetStr("protocol") == Some("dns")
  }

  predicate Bindable(outbound: Json) {
    IsOffline(outbound) ||
    (&& outbound.Obj?
     && ("streamSettings" in outbound.fields ==>
           && outbound.fields["streamSettings"].Obj?
           && (outbound.fields["streamSettings"].Get("sockopt").Some? ==>
                 outbound.fields["streamSettings"].Get("sockopt").value.Obj?)))
  }

  function FieldsOf(value: Option<Json>): map<string, Json> {
    if value.Some? && value.value.Obj? then value.value.fields else map[]
  }

  /** The outbound with its sockets bound to one adapter. */
  function BindOutbound(outbound: Json, name: string): Json
    requires Bindable(outbound)
  {
    if IsOffline(outbound) then outbound
    else
      var stream := FieldsOf(outbound.Get("streamSettings"));
      var sockopt := FieldsOf(Obj(stream).Get("sockopt"));
      Obj(outbound.fields["streamSettings" := Obj(stream["sockopt" := Obj(sockopt["interface" := Str(name)])])])
  }

  /** The configuration with the TUN settings that the service takes over removed. */
  function StripTun(inbound: Json): Json
    requires inbound.Get("settings").Some? && inbound.Get("settings").value.Obj?
  {
    Obj(inbound.fields["settings" := Obj(inbound.fields["settings"].fields - STRIPPED_FIELDS)])
  }

  function BindAll(outbounds: seq<Json>, name: string): (r: seq<Json>)
    requires forall i | 0 <= i < |outbounds| :: Bindable(outbounds[i])
    ensures |r| == |outbounds|
    ensures forall i | 0 <= i < |r| :: r[i] == BindOutbound(outbounds[i], name)
  {
    seq(|outbounds|, i requires 0 <= i < |outbounds| => BindOutbound(outbounds[i], name))
  }

  /** The configuration the service runs: no automatic TUN settings, every socket bound to one adapter. */
  function RewriteNativeOutboundInterface(config: Json, interfaceName: string): Result<Json, ConfigError> {
    match InspectNativeTunConfig(config)
    case Failed(error) => Err(error)
    case Done =>
      var name := Trim(interfaceName);
      if !ValidInterfaceName(name) then Err(BadInterfaceName)
      else
        var tun := StripTun(config.GetArr("inbounds").value[0]);
        match config.GetArr("outbounds")
        case None => Err(BadOutbound)
        case Some(outbounds) =>
          if exists i | 0 <= i < |outbounds| :: !Bindable(outbounds[i]) then Err(BadOutbound)
          else Ok(Obj(config.fields["inbounds" := Arr([tun])]["outbounds" := Arr(BindAll(outbounds, name))]))
  }

  /** The rewrite as the source does it: the TUN inbound, then one outbound after the other, in place. */
  method RewriteInPlace(config: Json, interfaceName: string) returns (r: Result<Json, ConfigError>)
    ensures r == RewriteNativeOutboundInterface(config, interfaceName)
  {
    hide NoFileReferences, TunSettingsAllowed, BindOutbound, Trim, Utf8Length;
    var inspected := InspectNativeTunConfig(config);
    if inspected.Failed? {
      return Err(inspected.error);
    }
    var name := Trim(interfaceName);
    if !ValidInterfaceName(name) {
      return Err(BadInterfaceName);
    }
    var root := config.fields;
    assert TunSettingsAllowed(root["inbounds"].items[0].Get("settings").value);
    var tun := root["inbounds"].items[0];
    assert tun.Get("settings").value.Obj? by { SettingsAreObject(tun.Get("settings").value); }
    root := root["inbounds" := Arr([StripTun(tun)])];
    if "outbounds" !in root || !root["outbounds"].Arr? {
      return Err(BadOutbound);
    }
    var outbounds := root["outbounds"].items;
    ghost var before := outbounds;
    for i := 0 to |outbounds|
      invariant |outbounds| == |before|
      invariant forall j | 0 <= j < i :: Bindable(before[j]) && outbounds[j] == BindOutbound(before[j], name)
      invariant forall j | i <= j < |outbounds| :: outbounds[j] == before[j]
    {
      if !Bindable(outbounds[i]) {
        return Err(BadOutbound);
      }
      outbounds := outbounds[i := BindOutbound(outbounds[i], name)];
    }
    assert outbounds == BindAll(before, name);
    r := Ok(Obj(root["outbounds" := Arr(outbounds)]));
  }

  lemma SettingsAreObject(settings: Json)
    requires TunSettingsAllowed(settings)
    ensures settings.Obj?
  {}

  predicate IsSocks(inbound: Json) {
    inbound.GetStr("protocol") == Some("socks")
  }

  predicate OnLoopback(inbound: Json) {
    inbound.GetStr("listen") == Some("127.0.0.1") || inbound.GetStr("listen") == Some("::1")
  }

  predicate HasPort(inbound: Json) {
    inbound.Get("port").Some? && inbound.Get("port").value.Number? && 0 < inbound.Get("port").value.value < 0x1_0000
  }

  function CountSocks(inbounds: seq<Json>): nat {
    if inbounds == [] then 0 else (if IsSocks(inbounds[0]) then 1 else 0) + CountSocks(inbounds[1..])
  }

  /** What the service demands of the configuration it runs as a preflight probe. */
  function InspectValidationConfig(config: Json): Outcome<ConfigError> {
    if !config.Obj? then Failed(NotAnObject)
    else if !(config.fields.Keys <= NATIVE_FIELDS) then Failed(UnsupportedField)
    else if "log" in config.fields && !config.fields["log"].Obj? then Failed(LogNotAnObject)
    else if !LogAllowed(config.fields) then Failed(LogFilePath)
    else if !NoFileReferences(config) then Failed(FileReference)
    else match config.GetArr("inbounds")
      case None => Failed(BadInbounds)
      case Some(inbounds) =>
        if exists i | 0 <= i < |inbounds| :: IsTun(inbounds[i]) || !OnLoopback(inbounds[i]) then Failed(BadInbounds)
        else if exists i | 0 <= i < |inbounds| :: IsSocks(inbounds[i]) && !HasPort(inbounds[i]) then Failed(BadSocks)
        else if CountSocks(inbounds) != 1 then Failed(BadSocks)
        else Done
  }

  predicate AllDistinct(ports: seq<nat>) {
    forall i, j | 0 <= i < j < |ports| :: ports[i] != ports[j]
  }

  /** The SOCKS inbounds, in order, on the ports given. */
  function WithPorts(inbounds: seq<Json>, ports: seq<nat>): (r: seq<Json>)
    requires CountSocks(inbounds) == |ports|
    ensures |r| == |inbounds|
  {
    if inbounds == [] then []
    else if IsSocks(inbounds[0])
      then [Obj(FieldsOf(Some(inbounds[0]))["port" := Number(ports[0])])] + WithPorts(inbounds[1..], ports[1..])
    else [inbounds[0]] + WithPorts(inbounds[1..], ports)
  }

  /** `rewrite_validation_ports`, which inspects what it made once more. */
  function RewriteValidationPorts(config: Json, ports: seq<nat>): Result<Json, ConfigError> {
    match InspectValidationConfig(config)
    case Failed(error) => Err(error)
    case Done =>
      var inbounds := config.GetArr("inbounds").value;
      if |ports| != CountSocks(inbounds) || (exists i | 0 <= i < |ports| :: ports[i] < 1024) || !AllDistinct(ports)
        then Err(BadPorts)
      else
        var rewritten := Obj(config.fields["inbounds" := Arr(WithPorts(inbounds, ports))]);
        match InspectValidationConfig(rewritten)
        case Failed(error) => Err(error)
        case Done => Ok(rewritten)
  }

  /** The loop of the source, with the replacements consumed one by one. */
  method RewritePortsInPlace(inbounds: seq<Json>, ports: seq<nat>) returns (r: seq<Json>)
    requires CountSocks(inbounds) == |ports|
    ensures r == WithPorts(inbounds, ports)
  {
    r := [];
    var next := 0;
    for i := 0 to |inbounds|
      invariant next <= |ports| && CountSocks(inbounds[i..]) == |ports| - next
      invariant r == WithPorts(inbounds, ports)[..i]
                && WithPorts(inbounds, ports)[i..] == WithPorts(inbounds[i..], ports[next..])
    {
      hide IsSocks;
      ghost var all := WithPorts(inbounds, ports);
      assert inbounds[i..][1..] == inbounds[i + 1..];
      assert all[i..][1..] == all[i + 1..] && all[..i + 1] == all[..i] + [all[i..][0]];
      if IsSocks(inbounds[i]) {
        assert ports[next..][1..] == ports[next + 1..];
        r := r + [Obj(FieldsOf(Some(inbounds[i]))["port" := Number(ports[next])])];
        next := next + 1;
      } else {
        r := r + [inbounds[i]];
      }
    }
  }
}
