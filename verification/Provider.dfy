/**
 What is taken over from the JSON of a provider: proxy outbounds, cleaned, and the plan of balancers and
 observatories around them (src-tauri/src/xray.rs).
 */
module Provider {
  import opened Wrappers
  import opened Json
  import opened Text
  import opened Outbound
  import opened Runtime

  const RESERVED_TAGS: set<string> := {"direct", "dns-out", "block"}

  datatype CompileError =
    | ProviderFileReference
    | InsecureTls
    | OutboundNotAnObject
    | NoProtocol
    | UnsupportedProtocol
    | UnsupportedTransport
    | NoOutbounds
    | UnsafeTag
    | NoProxy
    | UnusableBalancer
    | MissingKey
    | Panic

  /** A key by which a provider would make Xray open a file. */
  predicate NamesFile(key: string) {
    EndsWith(Lower(key), "file") || EndsWith(Lower(key), "filepath") || Lower(key) == "masterkeylog"
  }

  predicate ForbiddenFileReference(value: Json) {
    match value
    case Obj(fields) => exists key | key in fields :: NamesFile(key) || ForbiddenFileReference(fields[key])
    case Arr(items) => exists i | 0 <= i < |items| :: ForbiddenFileReference(items[i])
    case _ => false
  }

  predicate Insecure(value: Json) {
    match value
    case Bool(flag) => flag
    case Number(n) => 0 < n < 0x1_0000_0000_0000_0000
    case Str(text) => Lower(text) == "1" || Lower(text) == "true"
    case _ => false
  }

  predicate InsecureTlsOverride(value: Json) {
    match value
    case Obj(fields) =>
      exists key | key in fields ::
        (Lower(key) == "allowinsecure" && Insecure(fields[key])) || InsecureTlsOverride(fields[key])
    case Arr(items) => exists i | 0 <= i < |items| :: InsecureTlsOverride(items[i])
    case _ => false
  }

  function Fields(value: Option<Json>): map<string, Json> {
    if value.Some? && value.value.Obj? then value.value.fields else map[]
  }

  function ProtocolOf(outbound: Json): string {
    match outbound.GetStr("protocol")
    case Some(protocol) => Lower(protocol)
    case None => ""
  }

  /** The socket options that stay. */
  function CleanSockopt(stream: map<string, Json>, preserve: bool): map<string, Json> {
    Fields(Obj(stream).Get("sockopt")) - (if preserve then {} else {"dialerProxy"}) - {"mark"}
  }

  function CleanStream(fields: map<string, Json>, preserve: bool): map<string, Json> {
    var stream := Fields(Obj(fields).Get("streamSettings"));
    stream["sockopt" := Obj(CleanSockopt(stream, preserve))]
  }

  function CleanHead(fields: map<string, Json>, preserve: bool): map<string, Json> {
    var unsent := fields - {"sendThrough"};
    if preserve then unsent else (unsent - {"proxySettings"})["tag" := Str("proxy")]
  }

  /** A proxy outbound of a provider, without what could reach files, skip TLS checks or escape the tunnel. */
  function SanitizeRawOutbound(outbound: Json, preserve: bool): Result<Json, CompileError> {
    if ForbiddenFileReference(outbound) then Err(ProviderFileReference)
    else if InsecureTlsOverride(outbound) then Err(InsecureTls)
    else if !outbound.Obj? then Err(OutboundNotAnObject)
    else if outbound.GetStr("protocol").None? then Err(NoProtocol)
    else if ProtocolOf(outbound) !in PROXY_PROTOCOLS then Err(UnsupportedProtocol)
    else
      var fields := CleanHead(outbound.fields, preserve);
      if ProtocolOf(outbound) == "wireguard" then Ok(Obj(fields - {"streamSettings"}))
      else Ok(Obj(fields["streamSettings" := Obj(CleanStream(fields, preserve))]))
  }

  function TagOf(outbound: Json): string {
    Or(outbound.GetStr("tag"), "")
  }

  /** The tag a provider gave its outbound, or the one its position gives it. */
  function TagAt(outbound: Json, index: nat): string {
    if TagOf(outbound) != "" then TagOf(outbound)
    else if index == 0 then "proxy"
    else "proxy-" + Decimal(index + 1)
  }

  function Tags(outbounds: seq<Json>): set<string> {
    set i | 0 <= i < |outbounds| :: TagOf(outbounds[i])
  }

  /** One more outbound of the profile, after those collected so far. */
  function CollectOne(proxies: seq<Json>, outbound: Json, index: nat): Result<seq<Json>, CompileError> {
    if ProtocolOf(outbound) !in PROXY_PROTOCOLS then Ok(proxies)
    else match SanitizeRawOutbound(outbound, true)
      case Err(error) => Err(error)
      case Ok(clean) =>
        if clean.Obj? then
          var tag := TagAt(clean, index);
          if tag in RESERVED_TAGS || tag in Tags(proxies) then Err(UnsafeTag)
          else Ok(proxies + [Obj(clean.fields["tag" := Str(tag)])])
        else Err(Panic)
  }

  /** The proxy outbounds among `outbounds`, or the first error. */
  function Collect(outbounds: seq<Json>): Result<seq<Json>, CompileError> {
    if outbounds == [] then Ok([])
    else match Collect(outbounds[..|outbounds| - 1])
      case Err(error) => Err(error)
      case Ok(proxies) => CollectOne(proxies, outbounds[|outbounds| - 1], |outbounds| - 1)
  }

  function ProviderProxies(profile: Json): Result<seq<Json>, CompileError> {
    match profile.GetArr("outbounds")
    case None => Err(NoOutbounds)
    case Some(outbounds) =>
      match Collect(outbounds)
      case Err(error) => Err(error)
      case Ok(proxies) => if proxies == [] then Err(NoProxy) else Ok(proxies)
  }

  lemma CollectError(outbounds: seq<Json>, k: nat)
    requires k <= |outbounds| && Collect(outbounds[..k]).Err?
    ensures Collect(outbounds) == Collect(outbounds[..k])
    decreases |outbounds| - k
  {
    hide CollectOne, SanitizeRawOutbound;
    if k == |outbounds| {
      assert outbounds[..k] == outbounds;
    } else {
      assert outbounds[..k + 1][..k] == outbounds[..k];
      CollectError(outbounds, k + 1);
    }
  }

  lemma TagsAppend(proxies: seq<Json>, outbound: Json)
    ensures Tags(proxies + [outbound]) == Tags(proxies) + {TagOf(outbound)}
  {
    var longer := proxies + [outbound];
    forall tag | tag in Tags(proxies)
      ensures tag in Tags(longer)
    {
      var i :| 0 <= i < |proxies| && TagOf(proxies[i]) == tag;
      assert longer[i] == proxies[i];
    }
    assert longer[|proxies|] == outbound;
  }

  /** No file is named and no certificate check is turned off, anywhere in the value. */
  predicate Harmless(value: Json) {
    !ForbiddenFileReference(value) && !InsecureTlsOverride(value)
  }

  lemma HarmlessField(fields: map<string, Json>, key: string)
    requires Harmless(Obj(fields)) && key in fields
    ensures Harmless(fields[key]) && !NamesFile(key)
  {}

  lemma HarmlessUpdate(fields: map<string, Json>, key: string, value: Json)
    requires Harmless(Obj(fields)) && Harmless(value) && !NamesFile(key) && Lower(key) != "allowinsecure"
    ensures Harmless(Obj(fields[key := value]))
  {
    hide NamesFile;
    assert forall k | k in fields :: !NamesFile(k) && Harmless(fields[k]);
  }

  lemma HarmlessRest(fields: map<string, Json>, keys: set<string>)
    requires Harmless(Obj(fields))
    ensures Harmless(Obj(fields - keys))
  {
    hide NamesFile;
  }

  lemma {:induction false} HarmlessNamesNoFile(value: Json)
    requires Harmless(value)
    ensures NoFileReferences(value)
  {
    match value
    case Obj(fields) =>
      forall key | key in fields
        ensures Lower(key) !in FILE_KEYS && NoFileReferences(fields[key])
      {
        HarmlessField(fields, key);
        FileKeysNameFiles(key);
        HarmlessNamesNoFile(fields[key]);
      }
    case Arr(items) =>
      forall i | 0 <= i < |items|
        ensures NoFileReferences(items[i])
      {
        HarmlessNamesNoFile(items[i]);
      }
    case _ =>
  }

  /** Every key the service refuses is one the client refuses. */
  lemma FileKeysNameFiles(key: string)
    requires !NamesFile(key)
    ensures Lower(key) !in FILE_KEYS
  {
    assert EndsWith("file", "file") && EndsWith("certificatefile", "file") && EndsWith("keyfile", "file")
           && EndsWith("cafile", "file") && EndsWith("certfile", "file");
  }

  /** The keys the cleaning itself writes. */
  lemma OwnKeys()
    ensures forall key | key in {"tag", "streamSettings", "sockopt"} :: !NamesFile(key) && Lower(key) != "allowinsecure"
  {
    forall key | key in {"tag", "streamSettings", "sockopt"}
      ensures !NamesFile(key) && Lower(key) != "allowinsecure"
    {
      assert key[|key| - 1] in ['g', 's', 't'] && Lower(key)[|key| - 1] == key[|key| - 1];
      assert "file"[3] == 'e' && "filepath"[7] == 'h' && "masterkeylog"[11] == 'g' && |Lower("tag")| == 3;
      assert "allowinsecure"[12] == 'e';
    }
  }

  lemma FieldsHarmless(fields: map<string, Json>, key: string)
    requires Harmless(Obj(fields))
    ensures Harmless(Obj(Fields(Obj(fields).Get(key))))
  {
    hide NamesFile;
    if key in fields {
      HarmlessField(fields, key);
    }
  }

  lemma CleanStreamHarmless(fields: map<string, Json>, preserve: bool)
    requires Harmless(Obj(fields))
    ensures Harmless(Obj(CleanStream(fields, preserve)))
  {
    hide NamesFile, Harmless;
    var stream := Fields(Obj(fields).Get("streamSettings"));
    FieldsHarmless(fields, "streamSettings");
    FieldsHarmless(stream, "sockopt");
    var sockopt := Fields(Obj(stream).Get("sockopt"));
    var chained := sockopt - (if preserve then {} else {"dialerProxy"});
    HarmlessRest(sockopt, if preserve then {} else {"dialerProxy"});
    HarmlessRest(chained, {"mark"});
    OwnKeys();
    HarmlessUpdate(stream, "sockopt", Obj(CleanSockopt(stream, preserve)));
  }

  lemma CleanHeadHarmless(fields: map<string, Json>, preserve: bool)
    requires Harmless(Obj(fields))
    ensures Harmless(Obj(CleanHead(fields, preserve)))
  {
    hide NamesFile, Harmless;
    HarmlessRest(fields, {"sendThrough"});
    if !preserve {
      var unsent := fields - {"sendThrough"};
      HarmlessRest(unsent, {"proxySettings"});
      OwnKeys();
      assert Harmless(Str("proxy")) by { HarmlessText("proxy"); }
      HarmlessUpdate(unsent - {"proxySettings"}, "tag", Str("proxy"));
    }
  }

  lemma HarmlessText(text: string)
    ensures Harmless(Str(text))
  {}

  /** The shape every cleaned outbound has. */
  predicate CleanShape(outbound: Json, preserve: bool) {
    && outbound.Obj?
    && outbound.GetStr("protocol").Some? && ProtocolOf(outbound) in PROXY_PROTOCOLS
    && "sendThrough" !in outbound.fields
    && (!preserve ==> "proxySettings" !in outbound.fields && TagOf(outbound) == "proxy")
    && (if ProtocolOf(outbound) == "wireguard" then "streamSettings" !in outbound.fields
        else
          var stream := Fields(outbound.Get("streamSettings"));
          var sockopt := Fields(Obj(stream).Get("sockopt"));
          && outbound.Get("streamSettings") == Some(Obj(stream))
          && Obj(stream).Get("sockopt") == Some(Obj(sockopt))
          && "mark" !in sockopt
          && (!preserve ==> "dialerProxy" !in sockopt))
  }

  lemma SanitizedIsHarmless(outbound: Json, preserve: bool)
    requires SanitizeRawOutbound(outbound, preserve).Ok?
    ensures Harmless(SanitizeRawOutbound(outbound, preserve).value)
  {
    hide NamesFile, Harmless, ForbiddenFileReference, InsecureTlsOverride, CleanStream, CleanHead, ProtocolOf;
    var fields := outbound.fields;
    assert Harmless(outbound) by { HarmlessMeans(outbound); }
    CleanHeadHarmless(fields, preserve);
    var head := CleanHead(fields, preserve);
    if ProtocolOf(outbound) == "wireguard" {
      HarmlessRest(head, {"streamSettings"});
    } else {
      CleanStreamHarmless(head, preserve);
      OwnKeys();
      HarmlessUpdate(head, "streamSettings", Obj(CleanStream(head, preserve)));
    }
  }

  /** What cleaning an outbound leaves: nothing harmful, the shape above, and whatever is none of its business. */
  lemma SanitizedIsClean(outbound: Json, preserve: bool)
    requires SanitizeRawOutbound(outbound, preserve).Ok?
    ensures var clean := SanitizeRawOutbound(outbound, preserve).value;
            && Harmless(clean) && CleanShape(clean, preserve)
            && ProtocolOf(clean) == ProtocolOf(outbound)
            && clean.Get("settings") == outbound.Get("settings")
            && (preserve ==> clean.Get("tag") == outbound.Get("tag"))
  {
    hide NamesFile, Harmless, ForbiddenFileReference, InsecureTlsOverride;
    SanitizedIsHarmless(outbound, preserve);
  }

  lemma HarmlessMeans(value: Json)
    ensures Harmless(value) <==> !ForbiddenFileReference(value) && !InsecureTlsOverride(value)
  {}

  /** Cleaning is refused for the same outbounds in either mode, and cleaning twice changes nothing. */
  lemma SanitizeTwice(outbound: Json, preserve: bool)
    requires SanitizeRawOutbound(outbound, preserve).Ok?
    ensures SanitizeRawOutbound(outbound, !preserve).Ok?
    ensures SanitizeRawOutbound(SanitizeRawOutbound(outbound, preserve).value, preserve)
            == SanitizeRawOutbound(outbound, preserve)
  {
    hide NamesFile, Harmless, ForbiddenFileReference, InsecureTlsOverride;
    SanitizedIsClean(outbound, preserve);
    var clean := SanitizeRawOutbound(outbound, preserve).value;
    HarmlessMeans(clean);
    assert CleanHead(clean.fields, preserve) == clean.fields;
    if ProtocolOf(outbound) == "wireguard" {
      assert clean.fields - {"streamSettings"} == clean.fields;
    } else {
      var stream := Fields(clean.Get("streamSettings"));
      assert CleanSockopt(stream, preserve) == Fields(Obj(stream).Get("sockopt"));
      assert CleanStream(clean.fields, preserve) == stream;
      assert clean.fields["streamSettings" := Obj(stream)] == clean.fields;
    }
  }

  lemma ProxyIsNotOffline(outbound: Json)
    requires ProtocolOf(outbound) in PROXY_PROTOCOLS
    ensures !IsOffline(outbound)
  {
    assert |Lower("blackhole")| == 9 && Lower("blackhole")[0] == 'b' && |Lower("dns")| == 3;
  }

  /** The service can bind the sockets of a cleaned outbound. */
  lemma CleanIsBindable(outbound: Json, preserve: bool)
    requires Harmless(outbound) && CleanShape(outbound, preserve)
    ensures NoFileReferences(outbound) && Bindable(outbound) && !IsOffline(outbound)
  {
    hide ProtocolOf, IsOffline, NoFileReferences, Harmless;
    HarmlessNamesNoFile(outbound);
    ProxyIsNotOffline(outbound);
  }

  /** The loop of the source: the tags seen are kept in a set of their own. */
  method ProviderProxyOutbounds(profile: Json) returns (r: Result<seq<Json>, CompileError>)
    ensures r == ProviderProxies(profile)
  {
    hide ForbiddenFileReference, InsecureTlsOverride, Harmless, SanitizeRawOutbound, ProtocolOf, TagAt;
    var found := profile.GetArr("outbounds");
    if found.None? {
      return Err(NoOutbounds);
    }
    var outbounds := found.value;
    var proxies: seq<Json> := [];
    var tags: set<string> := {};
    for index := 0 to |outbounds|
      invariant Collect(outbounds[..index]) == Ok(proxies)
      invariant tags == Tags(proxies)
    {
      ghost var collected := proxies;
      var outbound := outbounds[index];
      assert outbounds[..index + 1][..index] == outbounds[..index];
      if ProtocolOf(outbound) in PROXY_PROTOCOLS {
        var sanitized := SanitizeRawOutbound(outbound, true);
        if sanitized.Err? {
          CollectError(outbounds, index + 1);
          return Err(sanitized.error);
        }
        SanitizedIsClean(outbound, true);
        var fields := sanitized.value.fields;
        var tag := TagAt(sanitized.value, index);
        if tag in RESERVED_TAGS || tag in tags {
          CollectError(outbounds, index + 1);
          return Err(UnsafeTag);
        }
        tags := tags + {tag};
        proxies := proxies + [Obj(fields["tag" := Str(tag)])];
        TagsAppend(collected, Obj(fields["tag" := Str(tag)]));
      }
    }
    assert outbounds[..|outbounds|] == outbounds;
    r := if proxies == [] then Err(NoProxy) else Ok(proxies);
  }

  /** The positions of the proxy outbounds. */
  function Origins(outbounds: seq<Json>): (r: seq<nat>)
    ensures forall i | 0 <= i < |r| :: r[i] < |outbounds|
  {
    if outbounds == [] then []
    else
      var last := |outbounds| - 1;
      var init := Origins(outbounds[..last]);
      if ProtocolOf(outbounds[last]) in PROXY_PROTOCOLS then init + [last] else init
  }

  /** They are the positions of the proxy outbounds, in order. */
  lemma {:induction false} OriginsAreTheProxies(outbounds: seq<Json>)
    ensures forall i, j | 0 <= i < j < |Origins(outbounds)| :: Origins(outbounds)[i] < Origins(outbounds)[j]
    ensures forall k: nat :: k in Origins(outbounds) <==>
              k < |outbounds| && ProtocolOf(outbounds[k]) in PROXY_PROTOCOLS
  {
    hide ProtocolOf;
    if outbounds != [] {
      var last := |outbounds| - 1;
      var init := outbounds[..last];
      OriginsAreTheProxies(init);
      forall k: nat
        ensures k in Origins(outbounds) <==> k < |outbounds| && ProtocolOf(outbounds[k]) in PROXY_PROTOCOLS
      {
        assert k < last ==> init[k] == outbounds[k];
        assert k in Origins(init) ==> k < last;
        assert k in Origins(outbounds) <==>
                 k in Origins(init) || (k == last && ProtocolOf(outbounds[last]) in PROXY_PROTOCOLS);
      }
    }
  }

  /** The outbound of the profile at `index`, cleaned and tagged. */
  predicate CollectedFrom(proxy: Json, outbound: Json, index: nat) {
    && SanitizeRawOutbound(outbound, true).Ok?
    && SanitizeRawOutbound(outbound, true).value.Obj?
    && var clean := SanitizeRawOutbound(outbound, true).value;
       proxy == Obj(clean.fields["tag" := Str(TagAt(clean, index))])
  }

  /** A proxy keeps the tag it came with; without one, its tag tells its position in the profile, counted from one. */
  lemma TagTellsPosition(outbound: Json, index: nat)
    ensures TagOf(outbound) != "" ==> TagAt(outbound, index) == TagOf(outbound)
    ensures TagOf(outbound) == "" && index == 0 ==> TagAt(outbound, index) == "proxy"
    ensures TagOf(outbound) == "" && index > 0 ==>
              StartsWith(TagAt(outbound, index), "proxy-")
                && ParseBelow(TagAt(outbound, index)[6..], index + 2) == Some(index + 1)
  {
    hide TagOf, Decimal, ParseBelow;
    if TagOf(outbound) == "" && index > 0 {
      ParseDecimal(index + 1, index + 2);
      assert TagAt(outbound, index)[6..] == Decimal(index + 1);
      assert TagAt(outbound, index)[..6] == "proxy-";
    }
  }

  predicate DistinctTags(outbounds: seq<Json>) {
    forall i, j | 0 <= i < j < |outbounds| :: TagOf(outbounds[i]) != TagOf(outbounds[j])
  }

  lemma CollectOneAdds(proxies: seq<Json>, outbound: Json, index: nat)
    requires CollectOne(proxies, outbound, index).Ok?
    ensures var r := CollectOne(proxies, outbound, index).value;
            if ProtocolOf(outbound) !in PROXY_PROTOCOLS then r == proxies
            else
              && |r| == |proxies| + 1 && r[..|proxies|] == proxies
              && CollectedFrom(r[|proxies|], outbound, index)
              && TagOf(r[|proxies|]) !in Tags(proxies) + RESERVED_TAGS
  {
    hide SanitizeRawOutbound, TagAt, ProtocolOf;
  }

  /** The proxies are the proxy outbounds of the profile, in order, each cleaned and tagged by its position. */
  lemma {:induction false} CollectedInOrder(outbounds: seq<Json>)
    requires Collect(outbounds).Ok?
    ensures |Collect(outbounds).value| == |Origins(outbounds)|
    ensures forall i | 0 <= i < |Origins(outbounds)| ::
              CollectedFrom(Collect(outbounds).value[i], outbounds[Origins(outbounds)[i]], Origins(outbounds)[i])
  {
    hide SanitizeRawOutbound, ProtocolOf, TagAt, CollectOne, CollectedFrom, TagOf, Tags;
    if outbounds != [] {
      var last := |outbounds| - 1;
      CollectedInOrder(outbounds[..last]);
      var init, proxies := Collect(outbounds[..last]).value, Collect(outbounds).value;
      CollectOneAdds(init, outbounds[last], last);
      var origins := Origins(outbounds);
      forall i | 0 <= i < |origins|
        ensures CollectedFrom(proxies[i], outbounds[origins[i]], origins[i])
      {
        if i < |init| {
          assert proxies[i] == proxies[..|init|][i];
        }
      }
    }
  }

  /** No two proxies share a tag, and none takes a tag of the client's own outbounds. */
  lemma {:induction false} CollectedDistinct(outbounds: seq<Json>)
    requires Collect(outbounds).Ok?
    ensures DistinctTags(Collect(outbounds).value) && Tags(Collect(outbounds).value) !! RESERVED_TAGS
  {
    hide SanitizeRawOutbound, ProtocolOf, TagAt, CollectOne, CollectedFrom, TagOf, Origins;
    if outbounds != [] {
      var last := |outbounds| - 1;
      CollectedDistinct(outbounds[..last]);
      var init, proxies := Collect(outbounds[..last]).value, Collect(outbounds).value;
      CollectOneAdds(init, outbounds[last], last);
      if |proxies| > |init| {
        assert proxies == init + [proxies[|init|]];
        TagsAppend(init, proxies[|init|]);
        DistinctAppend(init, proxies[|init|]);
      }
    }
  }

  lemma DistinctAppend(outbounds: seq<Json>, outbound: Json)
    requires DistinctTags(outbounds) && TagOf(outbound) !in Tags(outbounds)
    ensures DistinctTags(outbounds + [outbound])
  {
    hide TagOf;
  }

  /** Every collected proxy is clean, and tagged. */
  lemma CollectedClean(proxy: Json, outbound: Json, index: nat)
    requires CollectedFrom(proxy, outbound, index)
    ensures Harmless(proxy) && CleanShape(proxy, true)
    ensures TagOf(proxy) == TagAt(SanitizeRawOutbound(outbound, true).value, index) != ""
    ensures ProtocolOf(proxy) == ProtocolOf(outbound) && proxy.Get("settings") == outbound.Get("settings")
  {
    hide NamesFile, Harmless, ForbiddenFileReference, InsecureTlsOverride, SanitizeRawOutbound;
    SanitizedIsClean(outbound, true);
    var clean := SanitizeRawOutbound(outbound, true).value;
    OwnKeys();
    HarmlessText(TagAt(clean, index));
    HarmlessUpdate(clean.fields, "tag", Str(TagAt(clean, index)));
  }
}
