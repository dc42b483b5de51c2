/**
 Locations on which the client does less than it promises, one for each exact condition
 (src-tauri/src/xray.rs, src-tauri/src/subscription.rs).
 */
module Exceptions {
  import opened Wrappers
  import opened Json
  import opened Text
  import opened Outbound
  import opened Parser
  import opened RoundTrip
  import opened Provider
  import opened Plan

  /** A location with nothing but a credential. */
  function Plain(protocol: string): Server {
    Base(protocol, "example.org", 443).(uuid := "0a1b2c3d")
  }

  const UPPERCASE_VMESS: Server := Plain("VMESS")

  const UPPERCASE_TLS: Server := Plain("hysteria").(transport := "hysteria", security := "TLS")

  const SEEDED_KCP: Server := Plain("vless").(transport := "kcp", rawParams := map["seed" := "s"])

  const KEYED_PEER: Server := Plain("wireguard").(publicKey := Some("4e5f"))

  lemma AcceptedPlain(s: Server, pick: string)
    requires s.rawProfile.None? && s.rawOutbound.None? && !AsksForInsecureTls(s.rawParams)
    requires Lower(s.protocol) in {"vmess", "vless"} && Lower(s.transport) in TRANSPORTS
    ensures ValidateServer(s, pick).Done? && PlanOutbounds(s, pick).Ok?
            && PlanOutbounds(s, pick).value.proxies == [BuiltOutbound(s)]
  {
    hide BuiltOutbound, AsksForInsecureTls;
  }

  lemma Lowered()
    ensures Lower("VMESS") == "vmess" && Lower("vless") == "vless" && Lower("wireguard") == "wireguard"
    ensures Lower("tcp") == "tcp" && Lower("kcp") == "kcp" && Lower("TLS") == "tls" && Lower("hysteria") == "hysteria"
  {
    hide Lower;
    LowerOfProtocols();
    NetworksAreLower();
    LoweredNames();
  }

  lemma LoweredNames()
    ensures Lower("VMESS") == "vmess" && Lower("TLS") == "tls"
  {
    assert |Lower("VMESS")| == 5 && |Lower("TLS")| == 3;
  }

  /** VMess in capitals is accepted as VMess and built as VLESS. */
  lemma UppercaseBecomesVless(pick: string)
    ensures ValidateServer(UPPERCASE_VMESS, pick).Done?
    ensures BuiltOutbound(UPPERCASE_VMESS).GetStr("protocol") == Some("vless")
  {
    hide ProxySettings, StreamSettings, Lower, ValidateServer, PlanOutbounds;
    Lowered();
    AcceptedPlain(UPPERCASE_VMESS, pick);
  }

  /** Hysteria2 needs TLS; in capitals it is accepted, and built without. */
  lemma UppercaseLosesTls(pick: string)
    ensures ValidateServer(UPPERCASE_TLS, pick).Done?
    ensures var stream := BuiltOutbound(UPPERCASE_TLS).Get("streamSettings");
            && stream.Some?
            && stream.value.GetStr("security") == Some("none")
            && stream.value.Get("tlsSettings") == None
  {
    hide StreamSettings, ProxySettings, Lower;
    Lowered();
    StreamKeys(UPPERCASE_TLS);
  }

  /** A location whose outbound is read back as another one: the seed of mKCP is not read. */
  lemma SeedIsLost()
    ensures ValidateServer(SEEDED_KCP, "").Done?
    ensures var read := ParseOutbound(BuiltOutbound(SEEDED_KCP), None);
            read.Some? && BuiltOutbound(read.value) != BuiltOutbound(SEEDED_KCP)
  {
    hide ValidateServer, BuiltOutbound, ParseOutbound, Canonical, Readable, Faithful, Lower, PlanOutbounds;
    Lowered();
    AcceptedPlain(SEEDED_KCP, "");
    SeededIsReadable();
    ParseAfterBuild(SEEDED_KCP, None);
    RoundTripExactlyWhen(SEEDED_KCP, None);
  }

  lemma SeededIsReadable()
    ensures Readable(SEEDED_KCP) && !Faithful(SEEDED_KCP)
  {
    hide Lower, IsSentinel, HeadFaithful, SecurityFaithful;
    Lowered();
    NoSentinel();
    assert XrayNetwork("kcp") == "kcp";
    assert SEEDED_KCP.Given("seed") == Some("s");
  }

  lemma NoSentinel()
    ensures !IsSentinel("example.org")
  {
    hide Lower, Trim;
    TrimmedHost();
    assert |Lower("example.org")| == 11 by { LowerLength("example.org"); }
    assert |"balancer.host"| == 13;
  }

  lemma TrimmedHost()
    ensures Trim("example.org") == "example.org"
  {
    var host := "example.org";
    assert !IsSpace(host[0]) && !IsSpace(host[|host| - 1]);
    hide IsSpace;
  }

  lemma LowerLength(text: string)
    ensures |Lower(text)| == |text|
  {}

  /** No WireGuard location that is accepted survives a round trip: it has a public key, and that is not read. */
  lemma WireGuardNeverReturns(s: Server, pick: string, dialled: Option<(string, nat)>)
    requires s.protocol == "wireguard" && s.rawProfile.None? && s.rawOutbound.None?
    requires ValidateServer(s, pick).Done?
    ensures !RoundTrips(s, dialled)
  {
    hide Lower, TrimStart, TrimEnd, LocalAddress, EndpointText, ListField, NumberField, ReservedField, IsSentinel;
    Lowered();
    TrimEmpty();
  }

  lemma SomeWireGuardIsAccepted()
    ensures ValidateServer(KEYED_PEER, "").Done?
  {
    hide Lower, TrimStart, TrimEnd;
    Lowered();
    assert Trim("0a1b2c3d") != "" && Trim("4e5f") != "" by { TrimmedKeys(); }
  }

  lemma TrimmedKeys()
    ensures Trim("0a1b2c3d") != "" && Trim("4e5f") != ""
  {
    assert !IsSpace("0a1b2c3d"[0]) && !IsSpace("0a1b2c3d"[7]) && !IsSpace("4e5f"[0]) && !IsSpace("4e5f"[3]);
    hide IsSpace;
  }

  const PROXY_A: Json := Obj(map["protocol" := Str("vless"), "tag" := Str("a")])

  function BalancerNamed(tag: string): Json {
    Obj(map["tag" := Str(tag), "selector" := Arr([Str("a")])])
  }

  /** A profile with one proxy, two balancers over it and no rule that names either. */
  const TWO_BALANCERS: Json :=
    Obj(map["outbounds" := Arr([PROXY_A]),
            "routing" := Obj(map["balancers" := Arr([BalancerNamed("b1"), BalancerNamed("b2")])])])

  /** The proxy passes the cleaning. */
  lemma ProxyIsHarmless()
    ensures Harmless(PROXY_A) && ProtocolOf(PROXY_A) == "vless"
  {
    hide NamesFile, Lower;
    Lowered();
    assert !NamesFile("protocol") && !NamesFile("tag") by { PlainKeys(); }
    assert Lower("protocol") != "allowinsecure" && Lower("tag") != "allowinsecure" by { PlainKeys(); }
    HarmlessText("vless");
    HarmlessText("a");
  }

  lemma PlainKeys()
    ensures forall key | key in {"protocol", "tag"} :: !NamesFile(key) && Lower(key) != "allowinsecure"
  {
    forall key | key in {"protocol", "tag"}
      ensures !NamesFile(key) && Lower(key) != "allowinsecure"
    {
      assert key[|key| - 1] in ['l', 'g'] && |Lower(key)| == |key| && Lower(key)[|key| - 1] == key[|key| - 1];
      assert "file"[3] == 'e' && "filepath"[7] == 'h' && |"masterkeylog"| == 12 && |"allowinsecure"| == 13;
    }
  }

  lemma OneCollected() returns (proxy: Json)
    ensures ProviderProxies(TWO_BALANCERS) == Ok([proxy]) && TagOf(proxy) == "a"
  {
    hide Harmless, ForbiddenFileReference, InsecureTlsOverride, CleanStream, CleanHead, ProtocolOf;
    ProxyIsHarmless();
    HarmlessMeans(PROXY_A);
    SanitizedIsClean(PROXY_A, true);
    var clean := SanitizeRawOutbound(PROXY_A, true).value;
    assert TagOf(PROXY_A) == "a" == TagOf(clean);
    proxy := Obj(clean.fields["tag" := Str("a")]);
    assert proxy.GetStr("tag") == Some("a");
    assert [PROXY_A][..0] == [] && [PROXY_A][0] == PROXY_A;
    assert Collect([]) == Ok([]);
    assert [] + [proxy] == [proxy] && CollectOne([], PROXY_A, 0) == Ok([] + [proxy]);
    assert Collect([PROXY_A]) == CollectOne([], PROXY_A, 0) == Ok([proxy]);
    assert TWO_BALANCERS.GetArr("outbounds") == Some([PROXY_A]);
  }

  /** Both balancers are over the one proxy. */
  lemma BothSelect(proxy: Json)
    requires TagOf(proxy) == "a"
    ensures Items(Balancers(TWO_BALANCERS)) == [BalancerNamed("b1"), BalancerNamed("b2")]
    ensures forall i | 0 <= i < 2 :: SelectsProxy(Items(Balancers(TWO_BALANCERS))[i], Tags([proxy]))
    ensures ProfileBalancerTags(TWO_BALANCERS) == {"b1", "b2"}
  {
    var balancers := [BalancerNamed("b1"), BalancerNamed("b2")];
    assert [proxy][0] == proxy && "a" in Tags([proxy]);
    forall i | 0 <= i < 2
      ensures balancers[i].GetStr("tag") == Some(if i == 0 then "b1" else "b2")
      ensures SelectsProxy(balancers[i], Tags([proxy]))
    {
      var selector := balancers[i].GetArr("selector").value;
      assert selector[0] == Str("a") && StartsWith("a", "a");
      assert Selects(selector[0], Tags([proxy]));
    }
    assert balancers[0].GetStr("tag").value == "b1" && balancers[1].GetStr("tag").value == "b2";
  }

  const BALANCED: Server := Plain("vless").(rawOutbound := Some(PROXY_A), rawProfile := Some(TWO_BALANCERS))

  /** No rule names a target, so the hash set decides. */
  lemma PickDecides(proxy: Json, pick: string)
    requires ProviderProxies(TWO_BALANCERS) == Ok([proxy]) && TagOf(proxy) == "a"
    ensures PlanOutbounds(BALANCED, pick).Ok? && PlanOutbounds(BALANCED, pick).value.target == ToBalancer(pick)
  {
    hide SelectsProxy, ProviderProxies, Tags, Collect, ProfileBalancerTags, TagOf;
    BothSelect(proxy);
    assert Balancers(TWO_BALANCERS).Some?;
    assert Items(Routing(TWO_BALANCERS).Get("rules")) == [];
    assert NamedTarget(TWO_BALANCERS, [proxy]).None?;
    assert ProfileTarget(TWO_BALANCERS, [proxy], pick) == ToBalancer(pick);
  }

  /** Two calls for the same location plan two targets, as their hash sets happen to yield. */
  lemma TwoTargets()
    ensures Consistent(BALANCED) && ValidateServer(BALANCED, "b1").Done?
    ensures Admissible(BALANCED, "b1") && Admissible(BALANCED, "b2")
    ensures PlanOutbounds(BALANCED, "b1").value.target == ToBalancer("b1")
    ensures PlanOutbounds(BALANCED, "b2").value.target == ToBalancer("b2")
  {
    hide PlanOutbounds, ProviderProxies, Balancers, ProfileBalancerTags, TagOf, SelectsProxy, BalancerNamed;
    hide Consistent, AsksForInsecureTls, SanitizeRawOutbound, Lower;
    var proxy := OneCollected();
    BothSelect(proxy);
    PickDecides(proxy, "b1");
    PickDecides(proxy, "b2");
    BalancedIsConsistent();
  }

  lemma BalancedIsConsistent()
    ensures Consistent(BALANCED)
  {
    hide Harmless, BalancerNamed;
    ProxyIsHarmless();
    assert TWO_BALANCERS.GetArr("outbounds") == Some([PROXY_A]);
    assert [PROXY_A][0] == PROXY_A;
  }
}
