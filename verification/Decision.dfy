/**
 What routing rules mean: the first rule that matches a packet sends it on. And, independently of any
 rules, what a user's split-tunnel selection says should happen to a packet.
 */
module Decision {
  import opened Wrappers
  import opened Json
  import opened Text
  import opened Address
  import opened Prefixes
  import opened Plan
  import opened Compiler

  /** A flow as Xray sees it. `processes` holds the names and paths by which its owner can be matched. */
  datatype Packet = Packet(
    inbound: string,
    network: string,
    ip: Option<Address>,
    domain: Option<string>,
    port: nat,
    processes: set<string>)

  /** The strings of a condition. */
  predicate Lists(value: Json, text: string) {
    value.Arr? && Str(text) in value.items
  }

  const DOH_ADDRESS := V4(0x01010101)

  /** What an IP condition denotes: the private ranges and the resolver's own address are those that occur. */
  predicate IpTextCovers(text: string, address: Address) {
    || (text == DOH_SERVER && address == DOH_ADDRESS)
    || exists i | 0 <= i < |PRIVATE_CIDRS| :: PRIVATE_CIDRS[i].0 == text && Covers(PRIVATE_CIDRS[i].1, address)
  }

  predicate IpMatches(condition: Json, address: Address) {
    condition.Arr? && exists i | 0 <= i < |condition.items| ::
      condition.items[i].Str? && IpTextCovers(condition.items[i].text, address)
  }

  /** The domain itself or any below it. */
  predicate IsWithin(domain: string, suffix: string) {
    domain == suffix || EndsWith(domain, "." + suffix)
  }

  predicate DomainTextMatches(text: string, domain: string) {
    || (StartsWith(text, "domain:") && IsWithin(domain, text[7..]))
    || (StartsWith(text, "full:") && domain == text[5..])
  }

  predicate DomainMatches(condition: Json, domain: string) {
    condition.Arr? && exists i | 0 <= i < |condition.items| ::
      condition.items[i].Str? && DomainTextMatches(condition.items[i].text, domain)
  }

  predicate ProcessMatches(condition: Json, processes: set<string>) {
    condition.Arr? && exists i | 0 <= i < |condition.items| ::
      condition.items[i].Str? && condition.items[i].text in processes
  }

  predicate NetworkMatches(condition: Json, network: string) {
    condition.Str? && network in SplitOn(condition.text, ',')
  }

  /** Every condition the rule has holds. */
  predicate Matches(rule: Json, packet: Packet) {
    && (rule.Get("inboundTag").Some? ==> Lists(rule.Get("inboundTag").value, packet.inbound))
    && (rule.Get("port").Some? ==> rule.Get("port").value == Number(packet.port))
    && (rule.Get("network").Some? ==> NetworkMatches(rule.Get("network").value, packet.network))
    && (rule.Get("ip").Some? ==> packet.ip.Some? && IpMatches(rule.Get("ip").value, packet.ip.value))
    && (rule.Get("domain").Some? ==>
        packet.domain.Some? && DomainMatches(rule.Get("domain").value, packet.domain.value))
    && (rule.Get("process").Some? ==> ProcessMatches(rule.Get("process").value, packet.processes))
  }

  function TargetOf(rule: Json): Option<Target> {
    if rule.GetStr("outboundTag").Some? then Some(ToOutbound(rule.GetStr("outboundTag").value))
    else if rule.GetStr("balancerTag").Some? then Some(ToBalancer(rule.GetStr("balancerTag").value))
    else None
  }

  /** First match. */
  function FirstMatch(rules: seq<Json>, packet: Packet): Option<Target> {
    if rules == [] then None
    else if Matches(rules[0], packet) then TargetOf(rules[0])
    else FirstMatch(rules[1..], packet)
  }

  /** Where a configuration sends a packet. */
  function Decide(config: Json, packet: Packet): Option<Target> {
    FirstMatch(Items(Routing(config).Get("rules")), packet)
  }

  predicate SiteCovers(site: string, domain: string) {
    var pattern := Trim(site);
    pattern != "" && if StartsWith(pattern, "*.") then IsWithin(domain, pattern[2..]) else domain == pattern
  }

  predicate AppListed(split: SplitInput, packet: Packet) {
    exists app | app in split.apps :: app != "" && app in packet.processes
  }

  predicate SiteListed(split: SplitInput, packet: Packet) {
    packet.domain.Some? && exists site | site in split.sites :: SiteCovers(site, packet.domain.value)
  }

  /**
   What the selection means. Name lookups of apps go to the resolver inside Xray; the local network
   stays direct if allowed; a listed app, then a listed site, is treated as its list says; the
   resolver's own traffic is always tunnelled; everything else as the list of apps says.
   */
  function PlainDecision(split: SplitInput, allowLan: bool, target: Target, packet: Packet): Target {
    if packet.inbound == TUN_TAG && packet.port == DNS_PORT then DNS_OUT
    else if allowLan && packet.ip.Some? && IsPrivate(packet.ip.value) then DIRECT
    else if AppListed(split, packet) then (if split.AppsSelective() then target else DIRECT)
    else if SiteListed(split, packet) then (if split.SitesSelective() then target else DIRECT)
    else if packet.ip == Some(DOH_ADDRESS) then target
    else if split.AppsSelective() then DIRECT
    else target
  }

  /** Rules one after the other: the later ones see what the earlier ones let through. */
  lemma {:induction false} FirstMatchConcat(first: seq<Json>, second: seq<Json>, packet: Packet)
    requires forall i | 0 <= i < |first| :: TargetOf(first[i]).Some?
    ensures FirstMatch(first + second, packet) ==
              if FirstMatch(first, packet).Some? then FirstMatch(first, packet) else FirstMatch(second, packet)
  {
    hide Matches, TargetOf;
    if first == [] {
      assert first + second == second;
    } else {
      FirstMatchConcat(first[1..], second, packet);
      assert (first + second)[1..] == first[1..] + second;
    }
  }

  /** The rule has one condition, and the target it was made with. */
  lemma RuleTargets(conditions: map<string, Json>, target: Target)
    requires conditions.Keys !! {"type", "outboundTag", "balancerTag"}
    ensures TargetOf(Rule(conditions, target)) == Some(target)
    ensures forall key | key !in {"type", "outboundTag", "balancerTag"} ::
              Rule(conditions, target).Get(key) == if key in conditions then Some(conditions[key]) else None
  {}

  lemma DnsRuleMeans(packet: Packet)
    ensures TargetOf(DnsRule()) == Some(DNS_OUT)
    ensures Matches(DnsRule(), packet) <==> packet.inbound == TUN_TAG && packet.port == DNS_PORT
  {
    hide Rule, TargetOf;
    RuleTargets(map["inboundTag" := Arr([Str(TUN_TAG)]), "port" := Number(DNS_PORT)], DNS_OUT);
  }

  lemma PrivateTextsMean(address: Address)
    ensures IpMatches(Arr(Strings(PrivateTexts())), address) <==> IsPrivate(address)
  {
    hide Covers;
    var condition := Arr(Strings(PrivateTexts()));
    if IpMatches(condition, address) {
      var i :| 0 <= i < |condition.items| && condition.items[i].Str? && IpTextCovers(condition.items[i].text, address);
      NoPrivateTextIsDoh(i);
    }
    if IsPrivate(address) {
      var i :| 0 <= i < |PRIVATE_CIDRS| && Covers(PRIVATE_CIDRS[i].1, address);
      assert condition.items[i] == Str(PRIVATE_CIDRS[i].0);
    }
  }

  lemma NoPrivateTextIsDoh(i: nat)
    requires i < |PRIVATE_CIDRS|
    ensures PRIVATE_CIDRS[i].0 != DOH_SERVER
  {
    assert |DOH_SERVER| == 7 && DOH_SERVER[3] == '.';
    assert "::1/128"[3] == '/' && |"fc00::/7"| == 8;
  }

  lemma LanRuleMeans(packet: Packet)
    ensures TargetOf(LanRule()) == Some(DIRECT)
    ensures Matches(LanRule(), packet) <==> packet.ip.Some? && IsPrivate(packet.ip.value)
  {
    hide Rule, TargetOf, IpMatches, IsPrivate, PrivateTexts;
    RuleTargets(map["ip" := Arr(Strings(PrivateTexts()))], DIRECT);
    if packet.ip.Some? {
      PrivateTextsMean(packet.ip.value);
    }
  }

  lemma AppRuleMeans(app: string, target: Target, packet: Packet)
    ensures TargetOf(AppRule(app, target)) == Some(target)
    ensures Matches(AppRule(app, target), packet) <==> app in packet.processes
  {
    hide Rule, TargetOf;
    RuleTargets(map["process" := Arr([Str(app)])], target);
    assert [Str(app)][0] == Str(app);
  }

  lemma {:induction false} AppRulesMean(apps: seq<string>, target: Target, packet: Packet)
    ensures forall i | 0 <= i < |AppRules(apps, target)| :: TargetOf(AppRules(apps, target)[i]) == Some(target)
    ensures FirstMatch(AppRules(apps, target), packet) ==
              if exists app | app in apps :: app != "" && app in packet.processes then Some(target) else None
  {
    hide Matches, TargetOf, AppRule;
    if apps != [] {
      AppRulesMean(apps[1..], target, packet);
      AppRuleMeans(apps[0], target, packet);
      assert forall app :: app in apps <==> app == apps[0] || app in apps[1..];
      if apps[0] == "" {
        assert AppRules(apps, target) == AppRules(apps[1..], target);
      } else {
        assert AppRules(apps, target)[1..] == AppRules(apps[1..], target);
      }
    }
  }

  lemma MatcherMeans(site: string, domain: string)
    ensures DomainTextMatches(SiteMatcher(site), domain) <==>
              if StartsWith(site, "*.") then IsWithin(domain, site[2..]) else domain == site
  {
    if StartsWith(site, "*.") {
      assert ("domain:" + site[2..])[..7] == "domain:" && ("domain:" + site[2..])[7..] == site[2..];
    } else {
      assert ("full:" + site)[..5] == "full:" && ("full:" + site)[5..] == site;
    }
    assert "domain:"[0] == 'd' && "full:"[0] == 'f';
  }

  lemma {:induction false} MatchersMean(sites: seq<string>, domain: string)
    ensures (exists i | 0 <= i < |SiteMatchers(sites)| :: DomainTextMatches(SiteMatchers(sites)[i], domain))
            <==> exists site | site in sites :: SiteCovers(site, domain)
  {
    hide DomainTextMatches, IsWithin, SiteMatcher, Trim;
    if sites != [] {
      MatchersMean(sites[1..], domain);
      MatcherMeans(Trim(sites[0]), domain);
      assert forall site :: site in sites <==> site == sites[0] || site in sites[1..];
      var matchers, rest := SiteMatchers(sites), SiteMatchers(sites[1..]);
      if Trim(sites[0]) == "" {
        assert matchers == rest;
      } else {
        assert matchers[0] == SiteMatcher(Trim(sites[0]));
        if exists i | 0 <= i < |rest| :: DomainTextMatches(rest[i], domain) {
          var i :| 0 <= i < |rest| && DomainTextMatches(rest[i], domain);
          assert matchers[i + 1] == rest[i];
        }
        if exists i | 0 <= i < |matchers| :: DomainTextMatches(matchers[i], domain) {
          var i :| 0 <= i < |matchers| && DomainTextMatches(matchers[i], domain);
          assert i > 0 ==> matchers[i] == rest[i - 1];
          assert i == 0 ==> SiteCovers(sites[0], domain);
        }
      }
    }
  }

  lemma SiteRulesMean(sites: seq<string>, target: Target, packet: Packet)
    ensures forall i | 0 <= i < |SiteRules(sites, target)| :: TargetOf(SiteRules(sites, target)[i]) == Some(target)
    ensures FirstMatch(SiteRules(sites, target), packet) ==
              if packet.domain.Some? && exists site | site in sites :: SiteCovers(site, packet.domain.value)
                then Some(target) else None
  {
    hide Rule, TargetOf, SiteMatchers, SiteCovers, DomainTextMatches;
    var matchers := SiteMatchers(sites);
    if packet.domain.Some? {
      MatchersMean(sites, packet.domain.value);
    }
    if matchers != [] {
      RuleTargets(map["domain" := Arr(Strings(matchers))], target);
    }
  }

  lemma DohRuleMeans(target: Target, packet: Packet)
    ensures TargetOf(DohRule(target)) == Some(target)
    ensures Matches(DohRule(target), packet) <==> packet.ip == Some(DOH_ADDRESS)
  {
    hide Rule, TargetOf, Covers;
    RuleTargets(map["ip" := Arr([Str(DOH_SERVER)])], target);
    assert [Str(DOH_SERVER)][0] == Str(DOH_SERVER);
    forall i: nat | i < |PRIVATE_CIDRS| {
      NoPrivateTextIsDoh(i);
    }
  }

  lemma DefaultRuleMeans(target: Target, packet: Packet)
    ensures TargetOf(DefaultRule(target)) == Some(target)
    ensures Matches(DefaultRule(target), packet) <==> packet.network == "tcp" || packet.network == "udp"
  {
    hide Rule, TargetOf, SplitOn, NetworkMatches;
    RuleTargets(map["network" := Str("tcp,udp")], target);
    BothNetworks(packet.network);
  }

  lemma BothNetworks(network: string)
    ensures NetworkMatches(Str("tcp,udp"), network) <==> network == "tcp" || network == "udp"
  {
    assert JoinWith(["tcp", "udp"], ',') == "tcp,udp";
    SplitJoin(["tcp", "udp"], ',');
  }

  lemma OneRule(rule: Json, packet: Packet)
    ensures FirstMatch([rule], packet) == if Matches(rule, packet) then TargetOf(rule) else None
  {
    hide Matches, TargetOf;
    assert [rule][1..] == [];
  }

  /** The rules after the apps. */
  function LaterRules(split: SplitInput, target: Target): seq<Json> {
    SiteRules(split.sites, Either(split.SitesSelective(), target))
    + ([DohRule(target)] + [DefaultRule(Either(!split.AppsSelective(), target))])
  }

  lemma LaterRulesMean(split: SplitInput, target: Target, packet: Packet)
    requires packet.network == "tcp" || packet.network == "udp"
    ensures FirstMatch(LaterRules(split, target), packet) == Some(
              if SiteListed(split, packet) then Either(split.SitesSelective(), target)
              else if packet.ip == Some(DOH_ADDRESS) then target
              else Either(!split.AppsSelective(), target))
  {
    hide FirstMatch, Matches, TargetOf, SiteRules, DohRule, DefaultRule, SiteCovers;
    var sites := SiteRules(split.sites, Either(split.SitesSelective(), target));
    var doh, default := [DohRule(target)], [DefaultRule(Either(!split.AppsSelective(), target))];
    SiteRulesMean(split.sites, Either(split.SitesSelective(), target), packet);
    FirstMatchConcat(sites, doh + default, packet);
    DohRuleMeans(target, packet);
    OneRule(doh[0], packet);
    FirstMatchConcat(doh, default, packet);
    DefaultRuleMeans(Either(!split.AppsSelective(), target), packet);
    OneRule(default[0], packet);
  }

  lemma RulesInParts(split: SplitInput, allowLan: bool, target: Target)
    ensures RouteRules(split, allowLan, target) ==
              [DnsRule()] + ((if allowLan then [LanRule()] else []) +
              (AppRules(split.apps, Either(split.AppsSelective(), target)) + LaterRules(split, target)))
  {
    hide DnsRule, LanRule, AppRules, SiteRules, DohRule, DefaultRule;
  }

  /** The rules mean what the selection says, for lists of any length. */
  lemma RulesMeanTheSelection(split: SplitInput, allowLan: bool, target: Target, packet: Packet)
    requires packet.network == "tcp" || packet.network == "udp"
    ensures FirstMatch(RouteRules(split, allowLan, target), packet)
            == Some(PlainDecision(split, allowLan, target, packet))
  {
    hide FirstMatch, Matches, TargetOf, DnsRule, LanRule, AppRules, RouteRules, LaterRules, IsPrivate, SiteListed;
    var dns := [DnsRule()];
    var lan := if allowLan then [LanRule()] else [];
    var apps := AppRules(split.apps, Either(split.AppsSelective(), target));
    var later := LaterRules(split, target);
    DnsRuleMeans(packet);
    OneRule(dns[0], packet);
    FirstMatchConcat(dns, lan + (apps + later), packet);
    LanRuleMeans(packet);
    OneRule(LanRule(), packet);
    FirstMatchConcat(lan, apps + later, packet);
    if !allowLan {
      assert lan + (apps + later) == apps + later;
    }
    AppRulesMean(split.apps, Either(split.AppsSelective(), target), packet);
    FirstMatchConcat(apps, later, packet);
    LaterRulesMean(split, target, packet);
    RulesInParts(split, allowLan, target);
  }

  lemma DohIsPublic()
    ensures !IsPrivate(DOH_ADDRESS)
  {
    hide Covers, Pow2, IsPrivate;
    BlackholeIsPrivateButLoopback(DOH_ADDRESS);
    assert !IsLoopback(DOH_ADDRESS) by { DohIsNotLoopback(); }
  }

  lemma DohIsNotLoopback()
    ensures !IsLoopback(DOH_ADDRESS)
  {
    SmallPowers();
  }

  /**
   No lookup leaks: in every mode, the connection the resolver inside Xray opens, which has no owner and
   no domain, is tunnelled.
   */
  lemma ResolverIsTunnelled(split: SplitInput, allowLan: bool, target: Target, packet: Packet)
    requires packet.network == "tcp" || packet.network == "udp"
    requires packet.ip == Some(DOH_ADDRESS) && packet.domain.None? && packet.processes == {}
             && packet.inbound != TUN_TAG
    ensures FirstMatch(RouteRules(split, allowLan, target), packet) == Some(target)
  {
    hide FirstMatch, RouteRules, IsPrivate;
    RulesMeanTheSelection(split, allowLan, target, packet);
    DohIsPublic();
  }
}
