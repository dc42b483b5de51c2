/**
 The client compiles, the service inspects and rewrites: what survives of the meaning of a selection
 (src-tauri/src/xray.rs, crates/varmlen-service-core/src/runtime.rs).
 */
module EndToEnd {
  import opened Wrappers
  import opened Json
  import opened Text
  import opened Paths
  import opened Rewrite
  import opened Runtime
  import opened Outbound
  import opened Provider
  import opened Plan
  import opened Compiler
  import opened Decision
  import opened FileKeys
  import opened Address
  import opened Adapter

  /** The parts of a plan that come from a provider unseen name no file. */
  predicate ProviderPartsClean(plan: OutboundPlan) {
    && (plan.balancers.Some? ==> NoFileReferences(plan.balancers.value))
    && (plan.observatory.Some? ==> NoFileReferences(plan.observatory.value))
    && (plan.burstObservatory.Some? ==> NoFileReferences(plan.burstObservatory.value))
  }

  lemma RuleNames(conditions: map<string, Json>, target: Target)
    requires FlatFields(conditions)
    ensures NoFileReferences(Rule(conditions, target))
  {
    hide Safe;
    ConfigKeysSafe();
    FlatObjectNames(Rule(conditions, target).fields);
  }

  lemma {:induction false} AppRulesName(apps: seq<string>, target: Target)
    ensures forall i | 0 <= i < |AppRules(apps, target)| :: NoFileReferences(AppRules(apps, target)[i])
  {
    hide Rule, NoFileReferences, Safe;
    if apps != [] {
      AppRulesName(apps[1..], target);
      ConfigKeysSafe();
      RuleNames(map["process" := Arr([Str(apps[0])])], target);
    }
  }

  lemma LaterRulesName(split: SplitInput, target: Target)
    ensures forall i | 0 <= i < |LaterRules(split, target)| :: NoFileReferences(LaterRules(split, target)[i])
  {
    hide Rule, NoFileReferences, Safe, SiteMatchers;
    ConfigKeysSafe();
    RuleNames(map["domain" := Arr(Strings(SiteMatchers(split.sites)))], Either(split.SitesSelective(), target));
    RuleNames(map["ip" := Arr([Str(DOH_SERVER)])], target);
    RuleNames(map["network" := Str("tcp,udp")], Either(!split.AppsSelective(), target));
  }

  lemma HeadRulesName()
    ensures NoFileReferences(DnsRule()) && NoFileReferences(LanRule())
  {
    hide Rule, NoFileReferences, Safe, PrivateTexts;
    ConfigKeysSafe();
    TunKeysSafe();
    RuleNames(map["inboundTag" := Arr([Str(TUN_TAG)]), "port" := Number(DNS_PORT)], DNS_OUT);
    RuleNames(map["ip" := Arr(Strings(PrivateTexts()))], DIRECT);
  }

  /** No generated rule names a file, whatever apps and sites are listed. */
  lemma RulesName(split: SplitInput, allowLan: bool, target: Target)
    ensures NoFileReferences(Arr(RouteRules(split, allowLan, target)))
  {
    hide RouteRules, LaterRules, AppRules, DnsRule, LanRule, NoFileReferences;
    HeadRulesName();
    AppRulesName(split.apps, Either(split.AppsSelective(), target));
    LaterRulesName(split, target);
    RulesInParts(split, allowLan, target);
    ListNames(RouteRules(split, allowLan, target));
  }

  lemma RoutingNames(rules: seq<Json>, balancers: Option<Json>)
    requires NoFileReferences(Arr(rules))
    ensures NoFileReferences(RoutingOf(rules, balancers)) <==> (balancers.Some? ==> NoFileReferences(balancers.value))
  {
    hide Safe, NoFileReferences;
    ConfigKeysSafe();
    ObjectNames(RoutingOf(rules, balancers).fields);
    if balancers.Some? {
      assert RoutingOf(rules, balancers).fields["balancers"] == balancers.value;
    }
  }

  lemma OwnOutboundsName()
    ensures forall i | 0 <= i < |OWN_OUTBOUNDS| :: NoFileReferences(OWN_OUTBOUNDS[i]) && Bindable(OWN_OUTBOUNDS[i])
  {
    hide NoFileReferences, Bindable;
    DirectOutboundNames();
    OfflineOutboundsName();
  }

  lemma DirectOutboundNames()
    ensures NoFileReferences(DIRECT_OUTBOUND) && Bindable(DIRECT_OUTBOUND)
  {
    hide Safe, NoFileReferences;
    ConfigKeysSafe();
    FlatObjectNames(map["domainStrategy" := Str("UseIP")]);
    FlatNames(Str("direct"));
    FlatNames(Str("freedom"));
    ObjectNames(DIRECT_OUTBOUND.fields);
  }

  lemma OfflineOutboundsName()
    ensures NoFileReferences(DNS_OUTBOUND) && Bindable(DNS_OUTBOUND) && NoFileReferences(BLOCK_OUTBOUND)
            && Bindable(BLOCK_OUTBOUND)
  {
    hide Safe, NoFileReferences;
    ConfigKeysSafe();
    FlatObjectNames(DNS_OUTBOUND.fields);
    FlatObjectNames(BLOCK_OUTBOUND.fields);
  }

  lemma OutboundsName(proxies: seq<Json>)
    ensures NoFileReferences(Arr(proxies + OWN_OUTBOUNDS)) <==> NoFileReferences(Arr(proxies))
  {
    hide NoFileReferences;
    OwnOutboundsName();
    ListNames(proxies);
    ListNames(proxies + OWN_OUTBOUNDS);
    forall i | 0 <= i < |proxies|
      ensures (proxies + OWN_OUTBOUNDS)[i] == proxies[i]
    {}
  }

  lemma TunNames()
    ensures NoFileReferences(Arr([TUN_INBOUND]))
  {
    hide Safe, NoFileReferences;
    ConfigKeysSafe();
    TunKeysSafe();
    FlatObjectNames(TUN_SETTINGS.fields);
    FlatObjectNames(SNIFFING.fields);
    FlatNames(Str(TUN_TAG));
    FlatNames(Str("tun"));
    ObjectNames(TUN_INBOUND.fields);
    OneNames(TUN_INBOUND.fields);
  }

  lemma FixedPartsName(logLevel: string)
    ensures NoFileReferences(Obj(map["loglevel" := Str(LogLevel(logLevel))])) && NoFileReferences(DNS_SETTINGS)
  {
    hide Safe, NoFileReferences;
    ConfigKeysSafe();
    FlatObjectNames(map["loglevel" := Str(LogLevel(logLevel))]);
    FlatObjectNames(DNS_SETTINGS.fields);
  }

  /** The fields of a generated configuration. */
  lemma ConfigParts(plan: OutboundPlan, split: SplitInput, allowLan: bool, logLevel: string)
    ensures var config := Obj(ConfigOf(plan, split, allowLan, logLevel));
            && config.fields.Keys <= NATIVE_FIELDS
            && config.Get("log") == Some(Obj(map["loglevel" := Str(LogLevel(logLevel))]))
            && config.Get("dns") == Some(DNS_SETTINGS)
            && config.Get("inbounds") == Some(Arr([TUN_INBOUND]))
            && config.Get("outbounds") == Some(Arr(plan.proxies + OWN_OUTBOUNDS))
            && config.Get("routing") == Some(RoutingOf(RouteRules(split, allowLan, plan.target), plan.balancers))
            && config.Get("observatory") == plan.observatory
            && config.Get("burstObservatory") == plan.burstObservatory
  {
    hide RouteRules, RoutingOf, LogLevel, Field;
    SevenFields(Obj(map["loglevel" := Str(LogLevel(logLevel))]), DNS_SETTINGS, Arr([TUN_INBOUND]),
                Arr(plan.proxies + OWN_OUTBOUNDS),
                RoutingOf(RouteRules(split, allowLan, plan.target), plan.balancers),
                plan.observatory, plan.burstObservatory);
  }

  /** An optional field on top of others. */
  lemma OptionalField(fields: map<string, Json>, key: string, value: Option<Json>)
    requires key !in fields
    ensures var more := fields + Field(key, value);
            && more.Keys <= fields.Keys + {key}
            && Obj(more).Get(key) == value
            && forall k | k != key :: Obj(more).Get(k) == Obj(fields).Get(k)
  {}

  lemma SevenFields(log: Json, dns: Json, inbounds: Json, outbounds: Json, routing: Json,
                    observatory: Option<Json>, burst: Option<Json>)
    ensures var config := Obj(map["log" := log, "dns" := dns, "inbounds" := inbounds, "outbounds" := outbounds,
                                  "routing" := routing]
                              + Field("observatory", observatory) + Field("burstObservatory", burst));
            && config.fields.Keys <= NATIVE_FIELDS
            && config.Get("log") == Some(log) && config.Get("dns") == Some(dns)
            && config.Get("inbounds") == Some(inbounds) && config.Get("outbounds") == Some(outbounds)
            && config.Get("routing") == Some(routing)
            && config.Get("observatory") == observatory && config.Get("burstObservatory") == burst
  {
    hide Field;
    var five :=
      map["log" := log, "dns" := dns, "inbounds" := inbounds, "outbounds" := outbounds, "routing" := routing];
    OptionalField(five, "observatory", observatory);
    OptionalField(five + Field("observatory", observatory), "burstObservatory", burst);
  }

  /** An object with none but the fields of a configuration names a file exactly when one of them does. */
  lemma NativeNames(config: map<string, Json>)
    requires config.Keys <= NATIVE_FIELDS
    ensures NoFileReferences(Obj(config)) <==> forall key | key in NATIVE_FIELDS :: Obj(config).Get(key).Some? ==>
              NoFileReferences(Obj(config).Get(key).value)
  {
    hide Safe, NoFileReferences;
    ConfigKeysSafe();
    ObjectNames(config);
    if forall key | key in NATIVE_FIELDS :: Obj(config).Get(key).Some? ==>
      NoFileReferences(Obj(config).Get(key).value) {
      forall key | key in config
        ensures NoFileReferences(config[key])
      {
        assert Obj(config).Get(key) == Some(config[key]);
      }
    }
  }

  /** A generated configuration names a file exactly when a proxy or an unseen part of the provider does. */
  lemma ConfigNames(plan: OutboundPlan, split: SplitInput, allowLan: bool, logLevel: string)
    ensures NoFileReferences(Obj(ConfigOf(plan, split, allowLan, logLevel)))
            <==> NoFileReferences(Arr(plan.proxies)) && ProviderPartsClean(plan)
  {
    hide NoFileReferences, RouteRules, RoutingOf, LogLevel, ConfigOf;
    ConfigParts(plan, split, allowLan, logLevel);
    FixedPartsName(logLevel);
    TunNames();
    OutboundsName(plan.proxies);
    RulesName(split, allowLan, plan.target);
    RoutingNames(RouteRules(split, allowLan, plan.target), plan.balancers);
    NativeNames(ConfigOf(plan, split, allowLan, logLevel));
  }

  lemma TunSettingsPass()
    ensures TunSettingsAllowed(TUN_SETTINGS)
  {}

  /** The service accepts a generated configuration exactly when it names no file. */
  lemma InspectionIsFileCheck(plan: OutboundPlan, split: SplitInput, allowLan: bool, logLevel: string)
    ensures InspectNativeTunConfig(Obj(ConfigOf(plan, split, allowLan, logLevel))).Done?
            <==> NoFileReferences(Obj(ConfigOf(plan, split, allowLan, logLevel)))
  {
    hide NoFileReferences, RouteRules, RoutingOf, LogLevel, TunSettingsAllowed, ConfigOf;
    TunSettingsPass();
    ConfigParts(plan, split, allowLan, logLevel);
  }

  /** Every outbound of a plan can be bound. */
  lemma PlannedProxies(s: Server, pick: string)
    requires PlanOutbounds(s, pick).Ok?
    ensures forall i | 0 <= i < |PlanOutbounds(s, pick).value.proxies| ::
              Bindable(PlanOutbounds(s, pick).value.proxies[i]) && !IsOffline(PlanOutbounds(s, pick).value.proxies[i])
    ensures NoFileReferences(Arr(PlanOutbounds(s, pick).value.proxies)) <==> ExtraClean(s, pick)
  {
    hide SanitizeRawOutbound, BuiltOutbound, NoFileReferences, Bindable, IsOffline, Collect, Harmless, CleanShape,
         ExtraNamesNoFile;
    var proxies := PlanOutbounds(s, pick).value.proxies;
    ListNames(proxies);
    if ProfilePlan(s, pick) != Ok(None) {
      var outbounds := s.rawProfile.value.GetArr("outbounds").value;
      CollectedInOrder(outbounds);
      forall i | 0 <= i < |proxies|
        ensures Bindable(proxies[i]) && !IsOffline(proxies[i]) && NoFileReferences(proxies[i])
      {
        var k := Origins(outbounds)[i];
        CollectedClean(proxies[i], outbounds[k], k);
        CleanIsBindable(proxies[i], true);
      }
    } else if s.rawOutbound.Some? {
      SanitizedIsClean(s.rawOutbound.value, false);
      CleanIsBindable(proxies[0], false);
    } else {
      BuiltNames(s);
      assert proxies == [BuiltOutbound(s)] && proxies[0] == BuiltOutbound(s);
    }
  }

  /**
   What a location must not bring along for the service to accept it: file keys in the free-form part of an xhttp
   transport.
   */
  predicate ExtraClean(s: Server, pick: string) {
    ProfilePlan(s, pick) == Ok(None) && s.rawOutbound.None? && s.protocol != "wireguard" ==> ExtraNamesNoFile(s)
  }

  /** What a location brings along that the client passes on unseen names no file. */
  predicate UnseenPartsClean(s: Server, pick: string) {
    PlanOutbounds(s, pick).Ok? && ProviderPartsClean(PlanOutbounds(s, pick).value) && ExtraClean(s, pick)
  }

  /**
   The service accepts what the client compiles for a validated location, exactly when its unseen parts name no file.
   */
  lemma AcceptedExactlyWhen(s: Server, validPick: string, pick: string, split: SplitInput, allowLan: bool,
                            logLevel: string)
    requires ValidateServer(s, validPick).Done?
    ensures BuildXrayConfig(s, pick, split, allowLan, logLevel).Ok?
    ensures InspectNativeTunConfig(BuildXrayConfig(s, pick, split, allowLan, logLevel).value).Done?
            <==> UnseenPartsClean(s, pick)
  {
    hide ValidateServer, PlanOutbounds, InspectNativeTunConfig, NoFileReferences, ConfigOf, ProviderPartsClean,
         ExtraClean;
    ValidatedIsPlanned(s, validPick, pick);
    var plan := PlanOutbounds(s, pick).value;
    InspectionIsFileCheck(plan, split, allowLan, logLevel);
    ConfigNames(plan, split, allowLan, logLevel);
    PlannedProxies(s, pick);
  }

  lemma PlainXhttpNames(s: Server)
    requires s.extra.None?
    ensures NoFileReferences(Obj(XhttpSettings(s)))
  {
    hide Safe, NoFileReferences;
    SettingsKeysSafe();
    FlatObjectNames(XhttpSettings(s));
  }

  /**
   A validated location without JSON of a provider, neither a raw outbound nor free-form settings, is always
   accepted.
   */
  lemma LinkLocationsAccepted(s: Server, validPick: string, pick: string, split: SplitInput, allowLan: bool,
                              logLevel: string)
    requires ValidateServer(s, validPick).Done?
    requires s.rawProfile.None? && s.rawOutbound.None? && s.extra.None?
    ensures BuildXrayConfig(s, pick, split, allowLan, logLevel).Ok?
    ensures InspectNativeTunConfig(BuildXrayConfig(s, pick, split, allowLan, logLevel).value).Done?
  {
    hide ValidateServer, InspectNativeTunConfig, NoFileReferences, BuiltOutbound, BuildXrayConfig, XhttpSettings,
         XrayNetwork;
    AcceptedExactlyWhen(s, validPick, pick, split, allowLan, logLevel);
    PlainXhttpNames(s);
  }

  /** The sockets of the outbound go through the adapter. */
  predicate BoundTo(outbound: Json, name: string) {
    outbound.Obj?
      && Obj(FieldsOf(Obj(FieldsOf(outbound.Get("streamSettings"))).Get("sockopt"))).Get("interface") == Some(Str(name))
  }

  lemma BindingBinds(outbound: Json, name: string)
    requires Bindable(outbound)
    ensures if IsOffline(outbound) then BindOutbound(outbound, name) == outbound
            else BoundTo(BindOutbound(outbound, name), name)
    ensures TagOf(BindOutbound(outbound, name)) == TagOf(outbound)
  {}

  /**
   The rewrite of an accepted configuration succeeds, binds its outbounds, and changes nothing beside the interface
   of those that dial and the settings of the inbound that the service takes over.
   */
  lemma RewriteBindsOnly(config: Json, outbounds: seq<Json>, interfaceName: string)
    requires InspectNativeTunConfig(config).Done?
    requires config.GetArr("outbounds") == Some(outbounds)
    requires forall i | 0 <= i < |outbounds| :: Bindable(outbounds[i])
    requires ValidInterfaceName(Trim(interfaceName))
    ensures var effective := RewriteNativeOutboundInterface(config, interfaceName);
            && effective.Ok? && effective.value.Obj?
            && effective.value.GetArr("outbounds") == Some(BindAll(outbounds, Trim(interfaceName)))
            && (forall key | key !in {"inbounds", "outbounds"} :: effective.value.Get(key) == config.Get(key))
            && (forall i | 0 <= i < |outbounds| ::
                  Rebound(outbounds[i], effective.value.GetArr("outbounds").value[i], Trim(interfaceName)))
            && config.GetArr("inbounds").Some? && effective.value.GetArr("inbounds").Some?
            && |config.GetArr("inbounds").value| == |effective.value.GetArr("inbounds").value| == 1
            && Stripped(config.GetArr("inbounds").value[0], effective.value.GetArr("inbounds").value[0])
  {
    hide Rebound, Stripped;
    BoundOnly(config, outbounds, interfaceName);
    RewriteChangesOnly(config, interfaceName);
  }

  lemma BoundOnly(config: Json, outbounds: seq<Json>, interfaceName: string)
    requires InspectNativeTunConfig(config).Done?
    requires config.GetArr("outbounds") == Some(outbounds)
    requires forall i | 0 <= i < |outbounds| :: Bindable(outbounds[i])
    requires ValidInterfaceName(Trim(interfaceName))
    ensures var effective := RewriteNativeOutboundInterface(config, interfaceName);
            && effective.Ok? && effective.value.Obj?
            && effective.value.GetArr("outbounds") == Some(BindAll(outbounds, Trim(interfaceName)))
  {
    hide NoFileReferences, Bindable, BindOutbound, ValidInterfaceName, Trim, StripTun, TunSettingsAllowed;
  }

  lemma RoutingDecides(rules: seq<Json>, balancers: Option<Json>, fields: map<string, Json>, packet: Packet)
    requires Obj(fields).Get("routing") == Some(RoutingOf(rules, balancers))
    ensures Decide(Obj(fields), packet) == FirstMatch(rules, packet)
  {}

  /**
   End to end: for every location the client accepts and whose unseen parts name no file, the service
   accepts and adapts the compiled configuration, every outbound that dials does so through the
   physical adapter, and every packet goes where the selection says.
   */
  lemma MeaningIsPreserved(s: Server, validPick: string, pick: string, split: SplitInput, allowLan: bool,
                           logLevel: string,
                           interfaceName: string, packet: Packet)
    requires ValidateServer(s, validPick).Done? && UnseenPartsClean(s, pick)
    requires ValidInterfaceName(Trim(interfaceName))
    requires packet.network == "tcp" || packet.network == "udp"
    ensures BuildXrayConfig(s, pick, split, allowLan, logLevel).Ok?
    ensures var effective := RewriteNativeOutboundInterface(BuildXrayConfig(s, pick, split, allowLan, logLevel).value,
                                                            interfaceName);
            var plan := PlanOutbounds(s, pick).value;
            && effective.Ok?
            && Decide(effective.value, packet) == Some(PlainDecision(split, allowLan, plan.target, packet))
            && effective.value.GetArr("outbounds").Some?
            && (forall i | 0 <= i < |effective.value.GetArr("outbounds").value| ::
                  var outbound := effective.value.GetArr("outbounds").value[i];
                  IsOffline(outbound) || BoundTo(outbound, Trim(interfaceName)))
            && var compiled := BuildXrayConfig(s, pick, split, allowLan, logLevel).value.GetArr("outbounds");
               && compiled.Some? && |compiled.value| == |effective.value.GetArr("outbounds").value|
               && forall i | 0 <= i < |compiled.value| ::
                    Rebound(compiled.value[i], effective.value.GetArr("outbounds").value[i], Trim(interfaceName))
  {
    hide ValidateServer, PlanOutbounds, InspectNativeTunConfig, RewriteNativeOutboundInterface, NoFileReferences,
         ConfigOf, ProviderPartsClean, ExtraClean, RouteRules, RoutingOf, PlainDecision, FirstMatch, Decide,
         Bindable, BindOutbound, BoundTo, IsOffline, Trim, ValidInterfaceName, Rebound, Stripped;
    AcceptedExactlyWhen(s, validPick, pick, split, allowLan, logLevel);
    var plan := PlanOutbounds(s, pick).value;
    PlannedProxies(s, pick);
    ConfigParts(plan, split, allowLan, logLevel);
    var all := plan.proxies + OWN_OUTBOUNDS;
    OwnOutboundsName();
    forall i | 0 <= i < |all|
      ensures Bindable(all[i])
    {
      assert i >= |plan.proxies| ==> all[i] == OWN_OUTBOUNDS[i - |plan.proxies|];
    }
    RewriteBindsOnly(Obj(ConfigOf(plan, split, allowLan, logLevel)), all, interfaceName);
    var effective :=
      RewriteNativeOutboundInterface(BuildXrayConfig(s, pick, split, allowLan, logLevel).value, interfaceName).value;
    RoutingDecides(RouteRules(split, allowLan, plan.target), plan.balancers, effective.fields, packet);
    RulesMeanTheSelection(split, allowLan, plan.target, packet);
    forall i | 0 <= i < |all|
      ensures IsOffline(BindOutbound(all[i], Trim(interfaceName)))
              || BoundTo(BindOutbound(all[i], Trim(interfaceName)), Trim(interfaceName))
    {
      BindingBinds(all[i], Trim(interfaceName));
    }
  }

  /** An IPv4 address as it is written. */
  function Dotted(address: Bits32): string {
    Decimal(Octet(address, 0)) + "." + Decimal(Octet(address, 1)) + "." + Decimal(Octet(address, 2)) + "."
      + Decimal(Octet(address, 3))
  }

  lemma DohServerIsWritten()
    ensures Dotted(DOH_ADDRESS.v4) == DOH_SERVER
  {
    assert Octet(DOH_ADDRESS.v4, 0) == Octet(DOH_ADDRESS.v4, 1) == Octet(DOH_ADDRESS.v4, 2)
           == Octet(DOH_ADDRESS.v4, 3) == 1;
    assert Decimal(1) == "1";
  }

  /**
   No lookup of a generated configuration leaks: the one resolver it names is asked over a connection of Xray's own,
   and the routing rules send whatever goes to that resolver's address into the tunnel.
   */
  lemma ResolverIsPinned(s: Server, pick: string, split: SplitInput, allowLan: bool, logLevel: string, packet: Packet)
    requires PlanOutbounds(s, pick).Ok?
    requires packet.network == "tcp" || packet.network == "udp"
    requires packet.ip == Some(DOH_ADDRESS) && packet.domain.None? && packet.processes == {}
             && packet.inbound != TUN_TAG
    ensures var config := BuildXrayConfig(s, pick, split, allowLan, logLevel).value;
            && config.Get("dns").Some?
            && config.Get("dns").value.GetArr("servers")
               == Some([Str("https://" + Dotted(DOH_ADDRESS.v4) + "/dns-query")])
            && Decide(config, packet) == Some(PlanOutbounds(s, pick).value.target)
  {
    hide PlanOutbounds, RouteRules, RoutingOf, FirstMatch, Decide, ConfigOf, Dotted;
    var plan := PlanOutbounds(s, pick).value;
    ConfigParts(plan, split, allowLan, logLevel);
    DohServerIsWritten();
    assert "https://" + DOH_SERVER + "/dns-query" == "https://1.1.1.1/dns-query";
    var config := ConfigOf(plan, split, allowLan, logLevel);
    RoutingDecides(RouteRules(split, allowLan, plan.target), plan.balancers, config, packet);
    ResolverIsTunnelled(split, allowLan, plan.target, packet);
  }

  /**
   What runs can tell the domain of a connection from its first bytes, without redirecting it: the site rules have
   something to match.
   */
  lemma DomainsAreSniffed(s: Server, pick: string, split: SplitInput, allowLan: bool, logLevel: string,
                          interfaceName: string)
    requires PlanOutbounds(s, pick).Ok?
    requires RewriteNativeOutboundInterface(BuildXrayConfig(s, pick, split, allowLan, logLevel).value,
                                            interfaceName).Ok?
    ensures var effective := RewriteNativeOutboundInterface(BuildXrayConfig(s, pick, split, allowLan, logLevel).value,
                                                            interfaceName).value;
            var inbounds := effective.GetArr("inbounds");
            && inbounds.Some? && |inbounds.value| == 1
            && inbounds.value[0].GetStr("tag") == Some(TUN_TAG)
            && var sniffing := In(inbounds.value[0], "sniffing");
               && sniffing.Get("enabled") == Some(Bool(true)) && sniffing.Get("routeOnly") == Some(Bool(true))
               && sniffing.GetArr("destOverride").Some?
               && {Str("http"), Str("tls"), Str("quic")} <= (set item | item in sniffing.GetArr("destOverride").value)
  {
    hide PlanOutbounds, ConfigOf, RouteRules, RewriteNativeOutboundInterface, Rebound;
    var plan := PlanOutbounds(s, pick).value;
    ConfigParts(plan, split, allowLan, logLevel);
    var config := BuildXrayConfig(s, pick, split, allowLan, logLevel).value;
    RewriteChangesOnly(config, interfaceName);
    assert config.GetArr("inbounds").value[0] == TUN_INBOUND;
    TunIsSniffed();
  }

  lemma TunIsSniffed()
    ensures TUN_INBOUND.GetStr("tag") == Some(TUN_TAG) && TUN_INBOUND.Get("sniffing") == Some(SNIFFING)
    ensures SNIFFING.Get("enabled") == Some(Bool(true)) && SNIFFING.Get("routeOnly") == Some(Bool(true))
    ensures SNIFFING.GetArr("destOverride") == Some([Str("http"), Str("tls"), Str("quic")])
  {}

  /** The target is one of the outbounds or balancers of the configuration. */
  predicate Resolves(config: Json, target: Target) {
    match target
    case ToOutbound(tag) => tag in Tags(Items(config.Get("outbounds")))
    case ToBalancer(tag) => tag in ItemTags(Items(Routing(config).Get("balancers")))
  }

  lemma {:induction false} RulesTarget(split: SplitInput, allowLan: bool, target: Target)
    ensures forall i | 0 <= i < |RouteRules(split, allowLan, target)| ::
              TargetOf(RouteRules(split, allowLan, target)[i]) in {Some(DNS_OUT), Some(DIRECT), Some(target)}
  {
    hide TargetOf, DnsRule, LanRule, AppRules, RouteRules, LaterRules;
    var packet := Packet("", "tcp", None, None, 0, {});
    DnsRuleMeans(packet);
    LanRuleMeans(packet);
    AppRulesMean(split.apps, Either(split.AppsSelective(), target), packet);
    LaterRulesTarget(split, target, packet);
    RulesInParts(split, allowLan, target);
  }

  lemma LaterRulesTarget(split: SplitInput, target: Target, packet: Packet)
    ensures forall i | 0 <= i < |LaterRules(split, target)| ::
              TargetOf(LaterRules(split, target)[i]) in {Some(DIRECT), Some(target)}
  {
    hide TargetOf, SiteRules, DohRule, DefaultRule;
    SiteRulesMean(split.sites, Either(split.SitesSelective(), target), packet);
    DohRuleMeans(target, packet);
    DefaultRuleMeans(Either(!split.AppsSelective(), target), packet);
  }

  lemma OwnTags()
    ensures TagOf(OWN_OUTBOUNDS[0]) == "direct" && TagOf(OWN_OUTBOUNDS[1]) == "dns-out"
            && TagOf(OWN_OUTBOUNDS[2]) == "block"
  {}

  lemma AllTags(proxies: seq<Json>)
    requires DistinctTags(proxies) && Tags(proxies) !! RESERVED_TAGS
    ensures DistinctTags(proxies + OWN_OUTBOUNDS)
    ensures Tags(proxies + OWN_OUTBOUNDS) == Tags(proxies) + RESERVED_TAGS
  {
    hide TagOf;
    OwnTags();
    var direct, dns, block := OWN_OUTBOUNDS[0], OWN_OUTBOUNDS[1], OWN_OUTBOUNDS[2];
    TagsAppend(proxies, direct);
    DistinctAppend(proxies, direct);
    TagsAppend(proxies + [direct], dns);
    DistinctAppend(proxies + [direct], dns);
    TagsAppend(proxies + [direct] + [dns], block);
    DistinctAppend(proxies + [direct] + [dns], block);
    assert proxies + OWN_OUTBOUNDS == proxies + [direct] + [dns] + [block];
  }

  lemma RoutingParts(fields: map<string, Json>, rules: seq<Json>, balancers: Option<Json>)
    requires Obj(fields).Get("routing") == Some(RoutingOf(rules, balancers))
    ensures Items(Routing(Obj(fields)).Get("rules")) == rules
    ensures Routing(Obj(fields)).Get("balancers") == balancers
  {}

  /** In a compiled configuration no two outbounds share a tag, and every rule leads somewhere. */
  lemma ReferencesResolve(s: Server, pick: string, split: SplitInput, allowLan: bool, logLevel: string)
    requires PlanOutbounds(s, pick).Ok? && Admissible(s, pick)
    ensures var config := BuildXrayConfig(s, pick, split, allowLan, logLevel).value;
            var rules := Items(Routing(config).Get("rules"));
            && DistinctTags(Items(config.Get("outbounds")))
            && rules == RouteRules(split, allowLan, PlanOutbounds(s, pick).value.target)
            && forall i | 0 <= i < |rules| :: TargetOf(rules[i]).Some? && Resolves(config, TargetOf(rules[i]).value)
  {
    hide PlanOutbounds, ConfigOf, RouteRules, RoutingOf, Routing, TargetOf, TagOf, SelectsProxy, Tags, ItemTags,
         DistinctTags;
    var plan := PlanOutbounds(s, pick).value;
    PlanIsClosed(s, pick);
    ConfigParts(plan, split, allowLan, logLevel);
    RoutingParts(ConfigOf(plan, split, allowLan, logLevel), RouteRules(split, allowLan, plan.target), plan.balancers);
    AllTags(plan.proxies);
    RulesTarget(split, allowLan, plan.target);
  }

  /** The probe configuration of a plan passes the preflight inspection exactly when the plan names no file. */
  lemma ProbeNames(plan: OutboundPlan)
    ensures InspectValidationConfig(Obj(ProbeConfigOf(plan))).Done? <==>
              NoFileReferences(Arr(plan.proxies)) && ProviderPartsClean(plan)
  {
    hide NoFileReferences, ProbeConfigOf, RoutingOf;
    ProbeParts(plan);
    ProbeInboundPasses();
    ProbePartsName(plan);
    RoutingNames([ProbeRule(plan.target)], plan.balancers);
    NativeNames(ProbeConfigOf(plan));
  }

  lemma ProbeParts(plan: OutboundPlan)
    ensures var config := Obj(ProbeConfigOf(plan));
            && config.fields.Keys <= NATIVE_FIELDS
            && config.Get("log") == Some(Obj(map["loglevel" := Str("warning")]))
            && config.Get("dns") == None
            && config.Get("inbounds") == Some(Arr([PROBE_INBOUND]))
            && config.Get("outbounds")
               == Some(Arr(plan.proxies + [Obj(map["tag" := Str("direct"), "protocol" := Str("freedom")])]))
            && config.Get("routing") == Some(RoutingOf([ProbeRule(plan.target)], plan.balancers))
            && config.Get("observatory") == plan.observatory
            && config.Get("burstObservatory") == plan.burstObservatory
  {
    hide RoutingOf, Rule, Field;
    var four :=
      map["log" := Obj(map["loglevel" := Str("warning")]),
          "inbounds" := Arr([PROBE_INBOUND]),
          "outbounds" := Arr(plan.proxies + [Obj(map["tag" := Str("direct"), "protocol" := Str("freedom")])]),
          "routing" := RoutingOf([ProbeRule(plan.target)], plan.balancers)];
    OptionalField(four, "observatory", plan.observatory);
    OptionalField(four + Field("observatory", plan.observatory), "burstObservatory", plan.burstObservatory);
  }

  lemma ProbePartsName(plan: OutboundPlan)
    ensures NoFileReferences(Obj(map["loglevel" := Str("warning")]))
    ensures NoFileReferences(Arr([PROBE_INBOUND]))
    ensures NoFileReferences(Arr([ProbeRule(plan.target)]))
    ensures NoFileReferences(Arr(plan.proxies + [Obj(map["tag" := Str("direct"), "protocol" := Str("freedom")])]))
            <==> NoFileReferences(Arr(plan.proxies))
  {
    hide NoFileReferences, Safe, Rule;
    ConfigKeysSafe();
    TunKeysSafe();
    FlatObjectNames(map["loglevel" := Str("warning")]);
    FlatObjectNames(map["udp" := Bool(false), "auth" := Str("noauth")]);
    FlatNames(Str(PROBE_TAG));
    FlatNames(Str("127.0.0.1"));
    FlatNames(Str("socks"));
    FlatNames(Number(PROBE_PORT));
    ObjectNames(PROBE_INBOUND.fields);
    OneNames(PROBE_INBOUND.fields);
    RuleNames(map["inboundTag" := Arr([Str(PROBE_TAG)]), "network" := Str("tcp,udp")], plan.target);
    ListNames([ProbeRule(plan.target)]);
    var direct := Obj(map["tag" := Str("direct"), "protocol" := Str("freedom")]);
    FlatObjectNames(direct.fields);
    ListNames(plan.proxies);
    ListNames(plan.proxies + [direct]);
    forall i | 0 <= i < |plan.proxies|
      ensures (plan.proxies + [direct])[i] == plan.proxies[i]
    {}
  }

  lemma ProbeInboundPasses()
    ensures !IsTun(PROBE_INBOUND) && OnLoopback(PROBE_INBOUND) && IsSocks(PROBE_INBOUND) && HasPort(PROBE_INBOUND)
    ensures CountSocks([PROBE_INBOUND]) == 1
  {
    assert [PROBE_INBOUND][1..] == [];
  }

  /** What the probe asks through its own inbound takes the way everything proxied takes. */
  lemma ProbeTakesTheTarget(plan: OutboundPlan, packet: Packet)
    requires packet.inbound == PROBE_TAG && (packet.network == "tcp" || packet.network == "udp")
    ensures Decide(Obj(ProbeConfigOf(plan)), packet) == Some(plan.target)
  {
    hide ProbeConfigOf, RoutingOf, Rule, NetworkMatches, SplitOn;
    ProbeParts(plan);
    RoutingDecides([ProbeRule(plan.target)], plan.balancers, ProbeConfigOf(plan), packet);
    OneRule(ProbeRule(plan.target), packet);
    RuleTargets(map["inboundTag" := Arr([Str(PROBE_TAG)]), "network" := Str("tcp,udp")], plan.target);
    BothNetworks(packet.network);
  }

  /** The preflight and the service accept the same locations: what is probed is what is run. */
  lemma AcceptedTogether(s: Server, pick: string, probePick: string, split: SplitInput, allowLan: bool,
                         logLevel: string)
    requires PlanOutbounds(s, pick).Ok? && PlanOutbounds(s, probePick).Ok?
    ensures InspectValidationConfig(BuildConnectionProbeConfig(s, probePick).value).Done?
            <==> InspectNativeTunConfig(BuildXrayConfig(s, pick, split, allowLan, logLevel).value).Done?
  {
    hide InspectNativeTunConfig, InspectValidationConfig, NoFileReferences, ConfigOf, ProbeConfigOf,
         SanitizeRawOutbound, BuiltOutbound, SelectsProxy, Collect, ProfileTarget;
    ProbeNames(PlanOutbounds(s, probePick).value);
    ConfigNames(PlanOutbounds(s, pick).value, split, allowLan, logLevel);
    InspectionIsFileCheck(PlanOutbounds(s, pick).value, split, allowLan, logLevel);
  }

  lemma {:induction false} PortsKeepInbounds(inbounds: seq<Json>, ports: seq<nat>)
    requires CountSocks(inbounds) == |ports|
    requires forall i | 0 <= i < |ports| :: 0 < ports[i] < 0x1_0000
    requires forall i | 0 <= i < |inbounds| ::
               !IsTun(inbounds[i]) && OnLoopback(inbounds[i]) && NoFileReferences(inbounds[i])
    ensures CountSocks(WithPorts(inbounds, ports)) == |ports|
    ensures forall i | 0 <= i < |inbounds| ::
              var inbound := WithPorts(inbounds, ports)[i];
              && !IsTun(inbound) && OnLoopback(inbound) && NoFileReferences(inbound)
              && (IsSocks(inbound) ==> HasPort(inbound))
  {
    hide NoFileReferences, OnLoopback, IsTun, HasPort;
    if inbounds != [] {
      if IsSocks(inbounds[0]) {
        PortKeepsInbound(inbounds[0], ports[0]);
        PortsKeepInbounds(inbounds[1..], ports[1..]);
      } else {
        PortsKeepInbounds(inbounds[1..], ports);
      }
      assert WithPorts(inbounds, ports)[1..]
             == WithPorts(inbounds[1..], if IsSocks(inbounds[0]) then ports[1..] else ports);
    }
  }

  lemma PortKeepsInbound(inbound: Json, port: nat)
    requires IsSocks(inbound) && 0 < port < 0x1_0000
    requires OnLoopback(inbound) && NoFileReferences(inbound)
    ensures var moved := Obj(inbound.fields["port" := Number(port)]);
            !IsTun(moved) && OnLoopback(moved) && NoFileReferences(moved) && IsSocks(moved) && HasPort(moved)
  {
    assert Safe("port") by { SafeByEnding("port"); }
  }

  lemma InboundsUpdated(config: map<string, Json>, inbounds: Json)
    requires NoFileReferences(Obj(config)) && NoFileReferences(inbounds) && "inbounds" in config
    ensures NoFileReferences(Obj(config["inbounds" := inbounds]))
  {}

  /** The inbound listens on `port` now, if it is a SOCKS inbound, and is what it was otherwise. */
  ghost predicate MovedTo(before: Json, after: Json, port: nat) {
    if IsSocks(before) then
      && after.Obj? && after.Get("port") == Some(Number(port))
      && forall key | key != "port" :: after.Get(key) == before.Get(key)
    else after == before
  }

  lemma {:induction false} InboundsMove(inbounds: seq<Json>, ports: seq<nat>, port: nat)
    requires CountSocks(inbounds) == |ports| && forall j | 0 <= j < |ports| :: ports[j] == port
    ensures forall i | 0 <= i < |inbounds| :: MovedTo(inbounds[i], WithPorts(inbounds, ports)[i], port)
  {
    hide IsSocks, MovedTo;
    if inbounds != [] {
      var first, moved := inbounds[0], WithPorts(inbounds, ports);
      var rest := if IsSocks(first) then ports[1..] else ports;
      InboundsMove(inbounds[1..], rest, port);
      assert moved[1..] == WithPorts(inbounds[1..], rest);
      InboundMoves(first, port);
      forall i | 0 < i < |inbounds|
        ensures MovedTo(inbounds[i], moved[i], port)
      {
        assert moved[i] == moved[1..][i - 1] && inbounds[i] == inbounds[1..][i - 1];
      }
    }
  }

  lemma InboundMoves(inbound: Json, port: nat)
    ensures IsSocks(inbound) ==> MovedTo(inbound, Obj(FieldsOf(Some(inbound))["port" := Number(port)]), port)
    ensures !IsSocks(inbound) ==> MovedTo(inbound, inbound, port)
  {}

  /**
   The service can move the probe to a port of its own, and the second inspection never fails; nothing else is
   changed.
   */
  lemma PortsRewrittenExactlyWhen(config: Json, ports: seq<nat>)
    requires forall i | 0 <= i < |ports| :: ports[i] < 0x1_0000
    ensures RewriteValidationPorts(config, ports).Ok? <==>
              InspectValidationConfig(config).Done? && |ports| == 1 && ports[0] >= 1024
    ensures RewriteValidationPorts(config, ports).Ok? ==>
      var rewritten := RewriteValidationPorts(config, ports).value;
      && (forall key | key != "inbounds" :: rewritten.Get(key) == config.Get(key))
      && config.GetArr("inbounds").Some? && rewritten.GetArr("inbounds").Some?
      && var inbounds, moved := config.GetArr("inbounds").value, rewritten.GetArr("inbounds").value;
         |moved| == |inbounds| && forall i | 0 <= i < |inbounds| :: MovedTo(inbounds[i], moved[i], ports[0])
  {
    hide NoFileReferences, OnLoopback, IsTun, HasPort, WithPorts, IsSocks, MovedTo;
    if InspectValidationConfig(config).Done? && |ports| == 1 && ports[0] >= 1024 {
      var inbounds := config.GetArr("inbounds").value;
      InboundsNameNothing(config);
      PortsKeepInbounds(inbounds, ports);
      ListNames(WithPorts(inbounds, ports));
      InboundsUpdated(config.fields, Arr(WithPorts(inbounds, ports)));
      InboundsMove(inbounds, ports, ports[0]);
    }
  }

  lemma InboundsNameNothing(config: Json)
    requires NoFileReferences(config) && config.GetArr("inbounds").Some?
    ensures forall i | 0 <= i < |config.GetArr("inbounds").value| ::
              NoFileReferences(config.GetArr("inbounds").value[i])
  {
    assert NoFileReferences(config.fields["inbounds"]);
  }
}
