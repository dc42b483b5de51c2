/**
 The outbounds a location contributes and the one its traffic goes to
 (src-tauri/src/xray.rs, `profile_plan`, `outbound_plan`, `validate_server`).
 */
module Plan {
  import opened Wrappers
  import opened Json
  import opened Text
  import opened Outbound
  import opened Provider
  import opened Runtime

  /** Where a routing rule sends a packet. */
  datatype Target = ToOutbound(tag: string) | ToBalancer(tag: string)

  datatype OutboundPlan = OutboundPlan(
    proxies: seq<Json>,
    target: Target,
    balancers: Option<Json>,
    observatory: Option<Json>,
    burstObservatory: Option<Json>)

  function Routing(profile: Json): Json {
    Obj(FieldsOf(profile.Get("routing")))
  }

  /** The balancers of a profile, if it has any. */
  function Balancers(profile: Json): Option<Json> {
    match Routing(profile).Get("balancers")
    case Some(Arr(items)) => if items == [] then None else Some(Arr(items))
    case _ => None
  }

  function Items(list: Option<Json>): seq<Json> {
    if list.Some? && list.value.Arr? then list.value.items else []
  }

  /** The tags of the items that have one. */
  function ItemTags(items: seq<Json>): set<string> {
    set i | 0 <= i < |items| && items[i].GetStr("tag").Some? :: items[i].GetStr("tag").value
  }

  predicate Selects(selector: Json, tags: set<string>) {
    selector.Str? && exists tag | tag in tags :: StartsWith(tag, selector.text)
  }

  /** Some selector of the balancer is the beginning of a proxy tag. */
  predicate SelectsProxy(balancer: Json, tags: set<string>) {
    && balancer.GetStr("tag").Some?
    && balancer.GetArr("selector").Some?
    && exists i | 0 <= i < |balancer.GetArr("selector").value| :: Selects(balancer.GetArr("selector").value[i], tags)
  }

  predicate IsComposite(profile: Json, proxies: seq<Json>) {
    |proxies| > 1 || Balancers(profile).Some? || profile.Get("observatory").Some?
      || profile.Get("burstObservatory").Some?
  }

  /** What one rule of the provider points at, if it is a balancer or proxy of the profile. */
  function RuleTarget(rule: Json, balancers: set<string>, proxies: set<string>): Option<Target> {
    if rule.GetStr("balancerTag").Some? && rule.GetStr("balancerTag").value in balancers
      then Some(ToBalancer(rule.GetStr("balancerTag").value))
    else if rule.GetStr("outboundTag").Some? && rule.GetStr("outboundTag").value in proxies
      then Some(ToOutbound(rule.GetStr("outboundTag").value))
    else None
  }

  /** The target of the last rule that has one. */
  function LastTarget(rules: seq<Json>, balancers: set<string>, proxies: set<string>): Option<Target> {
    if rules == [] then None
    else
      var last := RuleTarget(rules[|rules| - 1], balancers, proxies);
      if last.Some? then last else LastTarget(rules[..|rules| - 1], balancers, proxies)
  }

  /** The balancers of the profile of a location. */
  function ProfileBalancerTags(profile: Json): set<string> {
    ItemTags(Items(Balancers(profile)))
  }

  /** The target the rules of a profile name. */
  function NamedTarget(profile: Json, proxies: seq<Json>): Option<Target> {
    LastTarget(Items(Routing(profile).Get("rules")), ProfileBalancerTags(profile), Tags(proxies))
  }

  /**
   Where the traffic of a composite profile goes. `pick` is the balancer tag that the hash set of this
   call happens to yield first.
   */
  function ProfileTarget(profile: Json, proxies: seq<Json>, pick: string): Target
    requires proxies != []
  {
    if NamedTarget(profile, proxies).Some? then NamedTarget(profile, proxies).value
    else if ProfileBalancerTags(profile) != {} then ToBalancer(pick)
    else ToOutbound(TagOf(proxies[0]))
  }

  /** What a hash set of balancer tags can yield first. */
  predicate Admissible(s: Server, pick: string) {
    s.rawProfile.Some? && ProfileBalancerTags(s.rawProfile.value) != {} ==>
      pick in ProfileBalancerTags(s.rawProfile.value)
  }

  /** The plan of a profile with more than one outbound to it; nothing for a plain one. */
  function ProfilePlan(s: Server, pick: string): Result<Option<OutboundPlan>, CompileError> {
    if s.rawProfile.None? then Ok(None)
    else
      var profile := s.rawProfile.value;
      match ProviderProxies(profile)
      case Err(error) => Err(error)
      case Ok(proxies) =>
        if !IsComposite(profile, proxies) then Ok(None)
        else if exists i | 0 <= i < |Items(Balancers(profile))| ::
          !SelectsProxy(Items(Balancers(profile))[i], Tags(proxies))
          then Err(UnusableBalancer)
        else Ok(Some(OutboundPlan(proxies, ProfileTarget(profile, proxies, pick), Balancers(profile),
                                  profile.Get("observatory"), profile.Get("burstObservatory"))))
  }

  /**
   `build_proxy_outbound`: the cleaned outbound of the provider, which must be clean enough, or one built from the
   fields.
   */
  function ProxyOutbound(s: Server): Result<Json, CompileError> {
    match s.rawOutbound
    case None => Ok(BuiltOutbound(s))
    case Some(outbound) =>
      match SanitizeRawOutbound(outbound, false)
      case Ok(clean) => Ok(clean)
      case Err(_) => Err(Panic)
  }

  function PlanOutbounds(s: Server, pick: string): Result<OutboundPlan, CompileError> {
    match ProfilePlan(s, pick)
    case Err(error) => Err(error)
    case Ok(Some(plan)) => Ok(plan)
    case Ok(None) =>
      match ProxyOutbound(s)
      case Err(error) => Err(error)
      case Ok(proxy) => Ok(OutboundPlan([proxy], ToOutbound("proxy"), None, None, None))
  }

  predicate AsksForInsecureTls(rawParams: map<string, string>) {
    exists key | key in rawParams ::
      Lower(key) == "allowinsecure" && (Lower(rawParams[key]) == "1" || Lower(rawParams[key]) == "true")
  }

  /** Whether the client accepts a location; `pick` as in the plan it makes on the way. */
  function ValidateServer(s: Server, pick: string): Outcome<CompileError> {
    if s.rawProfile.Some? then
      match PlanOutbounds(s, pick) case Err(error) => Failed(error) case Ok(_) => Done
    else if s.rawOutbound.Some? then
      match SanitizeRawOutbound(s.rawOutbound.value, false) case Err(error) => Failed(error) case Ok(_) => Done
    else
      var protocol, transport := Lower(s.protocol), Lower(s.transport);
      if AsksForInsecureTls(s.rawParams) then Failed(InsecureTls)
      else if protocol !in PROXY_PROTOCOLS then Failed(UnsupportedProtocol)
      else if protocol == "wireguard" then
        if Trim(s.uuid) == "" || Trim(Or(s.publicKey, "")) == "" then Failed(MissingKey) else Done
      else if transport !in TRANSPORTS then Failed(UnsupportedTransport)
      else if protocol == "hysteria" && (transport != "hysteria" || Lower(s.security) != "tls")
        then Failed(UnsupportedTransport)
      else Done
  }

  /** The service can run every proxy, every reference resolves, and no two outbounds share a name. */
  predicate Closed(plan: OutboundPlan) {
    && plan.proxies != []
    && DistinctTags(plan.proxies) && Tags(plan.proxies) !! RESERVED_TAGS
    && (match plan.target
        case ToOutbound(tag) => tag in Tags(plan.proxies)
        case ToBalancer(tag) => tag in ItemTags(Items(plan.balancers)))
    && (plan.balancers.Some? ==> Items(plan.balancers) != [] && plan.balancers == Some(Arr(Items(plan.balancers))))
    && (forall i | 0 <= i < |Items(plan.balancers)| :: SelectsProxy(Items(plan.balancers)[i], Tags(plan.proxies)))
  }

  lemma {:induction false} LastTargetIsKnown(rules: seq<Json>, balancers: set<string>, proxies: set<string>)
    requires LastTarget(rules, balancers, proxies).Some?
    ensures match LastTarget(rules, balancers, proxies).value
            case ToOutbound(tag) => tag in proxies
            case ToBalancer(tag) => tag in balancers
  {
    if RuleTarget(rules[|rules| - 1], balancers, proxies).None? {
      LastTargetIsKnown(rules[..|rules| - 1], balancers, proxies);
    }
  }

  /** A rule of the provider points at this target: a balancer first, an outbound only if it names none. */
  predicate Points(rule: Json, balancers: set<string>, proxies: set<string>, target: Target) {
    match target
    case ToBalancer(tag) => rule.GetStr("balancerTag") == Some(tag) && tag in balancers
    case ToOutbound(tag) =>
      && rule.GetStr("outboundTag") == Some(tag) && tag in proxies
      && !(rule.GetStr("balancerTag").Some? && rule.GetStr("balancerTag").value in balancers)
  }

  /** The rule points at this target, and no later rule points anywhere. */
  ghost predicate PointsLast(rules: seq<Json>, i: nat, balancers: set<string>, proxies: set<string>, target: Target) {
    && i < |rules| && Points(rules[i], balancers, proxies, target)
    && forall j, other | i < j < |rules| :: !Points(rules[j], balancers, proxies, other)
  }

  lemma RulePoints(rule: Json, balancers: set<string>, proxies: set<string>)
    ensures forall target :: Points(rule, balancers, proxies, target) <==>
              RuleTarget(rule, balancers, proxies) == Some(target)
  {}

  lemma {:induction false} LastTargetPoints(rules: seq<Json>, balancers: set<string>, proxies: set<string>)
    returns (last: nat)
    ensures match LastTarget(rules, balancers, proxies)
            case Some(target) => PointsLast(rules, last, balancers, proxies, target)
            case None => forall i, target | 0 <= i < |rules| :: !Points(rules[i], balancers, proxies, target)
  {
    hide Points, RuleTarget;
    last := 0;
    if rules != [] {
      var shorter := rules[..|rules| - 1];
      RulePoints(rules[|rules| - 1], balancers, proxies);
      if RuleTarget(rules[|rules| - 1], balancers, proxies).Some? {
        last := |rules| - 1;
      } else {
        last := LastTargetPoints(shorter, balancers, proxies);
        assert forall i | 0 <= i < |shorter| :: rules[i] == shorter[i];
      }
    }
  }

  /**
   The traffic of a composite profile goes where the last rule points that points anywhere; if none does, to the
   balancer that comes first; and without balancers to the first proxy.
   */
  lemma TargetIsThatOfTheLastRule(s: Server, pick: string)
    requires ProfilePlan(s, pick).Ok? && ProfilePlan(s, pick).value.Some?
    ensures var plan, rules := ProfilePlan(s, pick).value.value, Items(Routing(s.rawProfile.value).Get("rules"));
            var balancers, proxies := ItemTags(Items(plan.balancers)), Tags(plan.proxies);
            || (exists i :: PointsLast(rules, i, balancers, proxies, plan.target))
            || (&& (forall i, target | 0 <= i < |rules| :: !Points(rules[i], balancers, proxies, target))
                && plan.target == if balancers != {} then ToBalancer(pick) else ToOutbound(TagOf(plan.proxies[0])))
  {
    hide SanitizeRawOutbound, SelectsProxy, TagOf, Collect, Points, RuleTarget;
    var plan := ProfilePlan(s, pick).value.value;
    var last := LastTargetPoints(Items(Routing(s.rawProfile.value).Get("rules")), ItemTags(Items(plan.balancers)),
                                 Tags(plan.proxies));
  }

  lemma BuiltTag(s: Server)
    ensures TagOf(BuiltOutbound(s)) == "proxy"
  {
    hide StreamSettings, ProxySettings;
  }

  lemma SingleIsClosed(proxy: Json)
    requires TagOf(proxy) == "proxy"
    ensures Closed(OutboundPlan([proxy], ToOutbound("proxy"), None, None, None))
  {
    assert [proxy][0] == proxy;
  }

  /** Whatever the client plans is closed. */
  lemma PlanIsClosed(s: Server, pick: string)
    requires PlanOutbounds(s, pick).Ok? && Admissible(s, pick)
    ensures Closed(PlanOutbounds(s, pick).value)
  {
    hide SanitizeRawOutbound, BuiltOutbound, SelectsProxy, TagOf, Collect;
    var plan := PlanOutbounds(s, pick).value;
    if ProfilePlan(s, pick).value.Some? {
      var profile := s.rawProfile.value;
      CollectedDistinct(profile.GetArr("outbounds").value);
      assert TagOf(plan.proxies[0]) in Tags(plan.proxies);
      if NamedTarget(profile, plan.proxies).Some? {
        LastTargetIsKnown(Items(Routing(profile).Get("rules")), ProfileBalancerTags(profile), Tags(plan.proxies));
      }
    } else {
      if s.rawOutbound.Some? {
        SanitizedIsClean(s.rawOutbound.value, false);
      } else {
        BuiltTag(s);
      }
      SingleIsClosed(plan.proxies[0]);
    }
  }

  /**
   The plan of a profile loses nothing of it: its observatories, its balancers and, unless it comes to a single
   outbound without any of these, every proxy outbound.
   */
  lemma PlanKeepsTheProfile(s: Server, pick: string)
    requires s.rawProfile.Some? && PlanOutbounds(s, pick).Ok?
    ensures var profile, plan := s.rawProfile.value, PlanOutbounds(s, pick).value;
            var balancers, proxies := Routing(profile).GetArr("balancers"), ProviderProxies(profile);
            && plan.observatory == profile.Get("observatory")
            && plan.burstObservatory == profile.Get("burstObservatory")
            && plan.balancers == (if balancers.Some? && balancers.value != [] then Some(Arr(balancers.value)) else None)
            && proxies.Ok? && |plan.proxies| == |proxies.value|
            && (|proxies.value| > 1 || plan.balancers.Some? || plan.observatory.Some? || plan.burstObservatory.Some? ==>
                  plan.proxies == proxies.value)
  {
    hide SanitizeRawOutbound, BuiltOutbound, SelectsProxy, Collect, ProfileTarget;
  }

  /** The outbound of a location with a profile is one of the proxy outbounds of that profile. */
  predicate Consistent(s: Server) {
    s.rawProfile.Some? && s.rawOutbound.Some? ==>
      s.rawProfile.value.GetArr("outbounds").Some? &&
      exists k | 0 <= k < |s.rawProfile.value.GetArr("outbounds").value| ::
        s.rawProfile.value.GetArr("outbounds").value[k] == s.rawOutbound.value
          && ProtocolOf(s.rawOutbound.value) in PROXY_PROTOCOLS
  }

  lemma {:induction false} CollectNeverPanics(outbounds: seq<Json>)
    ensures Collect(outbounds) != Err(Panic)
  {
    hide SanitizeRawOutbound, ProtocolOf, TagAt;
    if outbounds != [] {
      CollectNeverPanics(outbounds[..|outbounds| - 1]);
      SanitizeNeverPanics(outbounds[|outbounds| - 1], true);
    }
  }

  lemma SanitizeNeverPanics(outbound: Json, preserve: bool)
    ensures SanitizeRawOutbound(outbound, preserve).Err? ==> SanitizeRawOutbound(outbound, preserve).error != Panic
    ensures SanitizeRawOutbound(outbound, preserve).Ok? ==> SanitizeRawOutbound(outbound, preserve).value.Obj?
  {
    hide ForbiddenFileReference, InsecureTlsOverride;
  }

  /** The one `expect` that can fail, and when: a profile that needs no plan beside an outbound that does not pass. */
  lemma PanicsExactlyWhen(s: Server, pick: string)
    ensures PlanOutbounds(s, pick) == Err(Panic) <==>
              ProfilePlan(s, pick) == Ok(None) && s.rawOutbound.Some?
                && SanitizeRawOutbound(s.rawOutbound.value, false).Err?
  {
    hide SanitizeRawOutbound, BuiltOutbound, SelectsProxy;
    if s.rawProfile.Some? && s.rawProfile.value.GetArr("outbounds").Some? {
      CollectNeverPanics(s.rawProfile.value.GetArr("outbounds").value);
    }
  }

  /** A location as the parser makes them is planned without panicking, and once validated it is planned. */
  lemma ValidatedIsPlanned(s: Server, pick: string, otherPick: string)
    ensures Consistent(s) && s.rawProfile.Some? ==> ValidateServer(s, pick) != Failed(Panic)
    ensures ValidateServer(s, pick).Done? ==> PlanOutbounds(s, otherPick).Ok?
  {
    hide SanitizeRawOutbound, BuiltOutbound, SelectsProxy, Collect, ProfileTarget;
    PanicsExactlyWhen(s, pick);
    if Consistent(s) && s.rawProfile.Some? && PlanOutbounds(s, pick) == Err(Panic) {
      var outbounds := s.rawProfile.value.GetArr("outbounds").value;
      var k :| 0 <= k < |outbounds| && outbounds[k] == s.rawOutbound.value
        && ProtocolOf(s.rawOutbound.value) in PROXY_PROTOCOLS;
      CollectedInOrder(outbounds);
      OriginsAreTheProxies(outbounds);
      var i :| 0 <= i < |Origins(outbounds)| && Origins(outbounds)[i] == k;
      assert CollectedFrom(Collect(outbounds).value[i], outbounds[k], k);
      SanitizeTwice(outbounds[k], true);
      assert false;
    }
  }

  /**
   Two calls plan the same target whatever their hash sets yield, exactly when a rule of the provider
   names the target or there are no two balancers to choose from.
   */
  lemma SameTargetExactlyWhen(profile: Json, proxies: seq<Json>)
    requires proxies != []
    ensures (forall a, b | a in ProfileBalancerTags(profile) && b in ProfileBalancerTags(profile) ::
               ProfileTarget(profile, proxies, a) == ProfileTarget(profile, proxies, b))
            <==> NamedTarget(profile, proxies).Some? || forall a, b | a in ProfileBalancerTags(profile)
              && b in ProfileBalancerTags(profile) :: a == b
  {
    if NamedTarget(profile, proxies).None? {
      forall a, b | a in ProfileBalancerTags(profile) && b in ProfileBalancerTags(profile) && a != b
        ensures ProfileTarget(profile, proxies, a) != ProfileTarget(profile, proxies, b)
      {}
    }
  }
}
