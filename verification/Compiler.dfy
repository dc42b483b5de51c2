/**
 From a location and a split-tunnel selection to a configuration for Xray
 (src-tauri/src/xray.rs, src-tauri/src/split.rs).
 */
module Compiler {
  import opened Wrappers
  import opened Json
  import opened Text
  import opened Outbound
  import opened Provider
  import opened Plan
  import opened Runtime
  import Prefixes

  datatype SplitInput = SplitInput(appsMode: string, sitesMode: string, apps: seq<string>, sites: seq<string>)
  {
    predicate AppsSelective() { appsMode == "selective" }

    predicate SitesSelective() { sitesMode == "selective" }
  }

  const TUN_TAG := "tun-in"
  const DNS_PORT := 53
  const DOH_SERVER := "1.1.1.1"
  const DIRECT := ToOutbound("direct")
  const DNS_OUT := ToOutbound("dns-out")

  /** A rule with one condition and a target. */
  function Rule(conditions: map<string, Json>, target: Target): Json {
    Obj(match target
        case ToOutbound(tag) => conditions["type" := Str("field")]["outboundTag" := Str(tag)]
        case ToBalancer(tag) => conditions["type" := Str("field")]["balancerTag" := Str(tag)])
  }

  function PrivateTexts(): (r: seq<string>)
    ensures |r| == |Prefixes.PRIVATE_CIDRS|
    ensures forall i | 0 <= i < |r| :: r[i] == Prefixes.PRIVATE_CIDRS[i].0
  {
    seq(|Prefixes.PRIVATE_CIDRS|, i requires 0 <= i < |Prefixes.PRIVATE_CIDRS| => Prefixes.PRIVATE_CIDRS[i].0)
  }

  function DnsRule(): Json {
    Rule(map["inboundTag" := Arr([Str(TUN_TAG)]), "port" := Number(DNS_PORT)], DNS_OUT)
  }

  function LanRule(): Json {
    Rule(map["ip" := Arr(Strings(PrivateTexts()))], DIRECT)
  }

  function AppRule(app: string, target: Target): Json {
    Rule(map["process" := Arr([Str(app)])], target)
  }

  function DohRule(target: Target): Json {
    Rule(map["ip" := Arr([Str(DOH_SERVER)])], target)
  }

  function DefaultRule(target: Target): Json {
    Rule(map["network" := Str("tcp,udp")], target)
  }

  /** One rule for every app that is not empty. */
  function AppRules(apps: seq<string>, target: Target): seq<Json> {
    if apps == [] then []
    else (if apps[0] == "" then [] else [AppRule(apps[0], target)]) + AppRules(apps[1..], target)
  }

  /** The matcher for one site: a suffix after "*.", the exact name otherwise. */
  function SiteMatcher(site: string): string {
    if StartsWith(site, "*.") then "domain:" + site[2..] else "full:" + site
  }

  function SiteMatchers(sites: seq<string>): seq<string> {
    if sites == [] then []
    else (if Trim(sites[0]) == "" then [] else [SiteMatcher(Trim(sites[0]))]) + SiteMatchers(sites[1..])
  }

  function SiteRules(sites: seq<string>, target: Target): seq<Json> {
    if SiteMatchers(sites) == [] then [] else [Rule(map["domain" := Arr(Strings(SiteMatchers(sites)))], target)]
  }

  function Either(proxied: bool, target: Target): Target {
    if proxied then target else DIRECT
  }

  /** The routing rules, first match first. */
  function RouteRules(split: SplitInput, allowLan: bool, target: Target): seq<Json> {
    [DnsRule()]
    + (if allowLan then [LanRule()] else [])
    + AppRules(split.apps, Either(split.AppsSelective(), target))
    + SiteRules(split.sites, Either(split.SitesSelective(), target))
    + [DohRule(target), DefaultRule(Either(!split.AppsSelective(), target))]
  }

  lemma {:induction false} AppRulesAppend(apps: seq<string>, app: string, target: Target)
    ensures AppRules(apps + [app], target)
            == AppRules(apps, target) + (if app == "" then [] else [AppRule(app, target)])
  {
    hide AppRule;
    if apps != [] {
      AppRulesAppend(apps[1..], app, target);
      assert (apps + [app])[1..] == apps[1..] + [app];
    }
  }

  method PushAppRules(head: seq<Json>, apps: seq<string>, target: Target) returns (rules: seq<Json>)
    ensures rules == head + AppRules(apps, target)
  {
    hide AppRule, AppRules;
    rules := head;
    assert AppRules(apps[..0], target) == [] by { NoAppRules(target); }
    for i := 0 to |apps|
      invariant rules == head + AppRules(apps[..i], target)
    {
      AppRulesAppend(apps[..i], apps[i], target);
      assert apps[..i + 1] == apps[..i] + [apps[i]];
      if apps[i] != "" {
        rules := rules + [AppRule(apps[i], target)];
      }
    }
    assert apps[..|apps|] == apps;
  }

  lemma NoAppRules(target: Target)
    ensures AppRules([], target) == []
  {}

  /** The source's own way to the rules: one vector, pushed to in order. */
  method BuildRouteRules(split: SplitInput, allowLan: bool, target: Target) returns (rules: seq<Json>)
    ensures rules == RouteRules(split, allowLan, target)
  {
    hide DnsRule, LanRule, AppRules, DohRule, DefaultRule, SiteMatchers, Rule, RouteRules;
    var appsUseProxy, sitesUseProxy := split.AppsSelective(), split.SitesSelective();
    var defaultUsesProxy := !appsUseProxy;
    rules := [DnsRule()];
    if allowLan {
      rules := rules + [LanRule()];
    }
    ghost var head := rules;
    rules := PushAppRules(rules, split.apps, Either(appsUseProxy, target));
    var domains := SiteMatchers(split.sites);
    if domains != [] {
      rules := rules + [Rule(map["domain" := Arr(Strings(domains))], Either(sitesUseProxy, target))];
    }
    rules := rules + [DohRule(target)];
    rules := rules + [DefaultRule(Either(defaultUsesProxy, target))];
    RulesAssembled(split, allowLan, target, head);
  }

  lemma RulesAssembled(split: SplitInput, allowLan: bool, target: Target, head: seq<Json>)
    requires head == if allowLan then [DnsRule()] + [LanRule()] else [DnsRule()]
    ensures RouteRules(split, allowLan, target) ==
              head + AppRules(split.apps, Either(split.AppsSelective(), target))
              + SiteRules(split.sites, Either(split.SitesSelective(), target))
              + [DohRule(target)] + [DefaultRule(Either(!split.AppsSelective(), target))]
    ensures head + AppRules(split.apps, Either(split.AppsSelective(), target)) + []
            == head + AppRules(split.apps, Either(split.AppsSelective(), target))
  {
    hide DnsRule, LanRule, AppRules, DohRule, DefaultRule, SiteRules;
  }

  function LogLevel(level: string): string {
    if level == "debug" || level == "info" || level == "error" || level == "none" then level else "warning"
  }

  const DIRECT_OUTBOUND := Obj(map["tag" := Str("direct"), "protocol" := Str("freedom"),
                                   "settings" := Obj(map["domainStrategy" := Str("UseIP")])])
  const DNS_OUTBOUND := Obj(map["tag" := Str("dns-out"), "protocol" := Str("dns")])
  const BLOCK_OUTBOUND := Obj(map["tag" := Str("block"), "protocol" := Str("blackhole")])
  const OWN_OUTBOUNDS: seq<Json> := [DIRECT_OUTBOUND, DNS_OUTBOUND, BLOCK_OUTBOUND]

  const DNS_SETTINGS :=
    Obj(map["servers" := Arr([Str("https://1.1.1.1/dns-query")]), "queryStrategy" := Str("UseIPv4")])

  const SNIFFING := Obj(map["enabled" := Bool(true), "destOverride" := Arr([Str("http"), Str("tls"), Str("quic")]),
                            "routeOnly" := Bool(true)])

  const TUN_SETTINGS := Obj(map[
    "name" := Str(TUN_ADAPTER_NAME), "desc" := Str(TUN_ADAPTER_DESCRIPTION), "mtu" := Number(1500),
    "gateway" := Arr([Str(TUN_IPV4_GATEWAY), Str(TUN_IPV6_GATEWAY)]), "dns" := Arr([Str(TUN_DNS)]),
    "autoSystemRoutingTable" := Arr([Str(IPV4_DEFAULT), Str(IPV6_DEFAULT)]), "autoOutboundsInterface" := Str("auto")])

  const TUN_INBOUND :=
    Obj(map["tag" := Str(TUN_TAG), "protocol" := Str("tun"), "settings" := TUN_SETTINGS, "sniffing" := SNIFFING])

  function RoutingOf(rules: seq<Json>, balancers: Option<Json>): Json {
    Obj(map["rules" := Arr(rules)] + Field("balancers", balancers))
  }

  /** The configuration of a plan. */
  function ConfigOf(plan: OutboundPlan, split: SplitInput, allowLan: bool, logLevel: string): map<string, Json> {
    map["log" := Obj(map["loglevel" := Str(LogLevel(logLevel))]),
        "dns" := DNS_SETTINGS,
        "inbounds" := Arr([TUN_INBOUND]),
        "outbounds" := Arr(plan.proxies + OWN_OUTBOUNDS),
        "routing" := RoutingOf(RouteRules(split, allowLan, plan.target), plan.balancers)]
    + Field("observatory", plan.observatory)
    + Field("burstObservatory", plan.burstObservatory)
  }

  /** `build_xray_config`; an error where the source would panic. */
  function BuildXrayConfig(s: Server, pick: string, split: SplitInput, allowLan: bool, logLevel: string)
    : Result<Json, CompileError>
  {
    match PlanOutbounds(s, pick)
    case Err(_) => Err(Panic)
    case Ok(plan) => Ok(Obj(ConfigOf(plan, split, allowLan, logLevel)))
  }

  const PROBE_TAG := "socks-in-0"
  const PROBE_PORT := 20810

  const PROBE_INBOUND := Obj(map[
    "tag" := Str(PROBE_TAG), "listen" := Str("127.0.0.1"), "port" := Number(PROBE_PORT), "protocol" := Str("socks"),
    "settings" := Obj(map["udp" := Bool(false), "auth" := Str("noauth")])])

  function ProbeRule(target: Target): Json {
    Rule(map["inboundTag" := Arr([Str(PROBE_TAG)]), "network" := Str("tcp,udp")], target)
  }

  function ProbeConfigOf(plan: OutboundPlan): map<string, Json> {
    map["log" := Obj(map["loglevel" := Str("warning")]),
        "inbounds" := Arr([PROBE_INBOUND]),
        "outbounds" := Arr(plan.proxies + [Obj(map["tag" := Str("direct"), "protocol" := Str("freedom")])]),
        "routing" := RoutingOf([ProbeRule(plan.target)], plan.balancers)]
    + Field("observatory", plan.observatory)
    + Field("burstObservatory", plan.burstObservatory)
  }

  function BuildConnectionProbeConfig(s: Server, pick: string): Result<Json, CompileError> {
    match PlanOutbounds(s, pick)
    case Err(error) => Err(error)
    case Ok(plan) => Ok(Obj(ProbeConfigOf(plan)))
  }
}
