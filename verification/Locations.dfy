/** The locations a JSON subscription holds (src-tauri/src/subscription.rs, `collect_json_servers`). */
module Locations {
  import opened Wrappers
  import opened Json
  import opened Text
  import opened Outbound
  import opened Parser
  import opened Plan
  import Provider

  const MAX_DEPTH := 6
  const WRAPPER_KEYS: seq<string> := ["servers", "links", "proxies", "configs", "list"]

  /** What the parsers of share links and of endpoint texts make of the strings of this subscription. */
  datatype Links = Links(servers: map<string, Server>, endpoints: map<string, (string, nat)>)

  predicate IsProxy(outbound: Json) {
    outbound.GetStr("protocol").Some? && outbound.GetStr("protocol").value in PROXY_PROTOCOLS
  }

  function ProxiesAmong(outbounds: seq<Json>): (r: seq<Json>)
    ensures forall i | 0 <= i < |r| :: IsProxy(r[i]) && r[i] in outbounds
  {
    if outbounds == [] then []
    else (if IsProxy(outbounds[0]) then [outbounds[0]] else []) + ProxiesAmong(outbounds[1..])
  }

  /** The endpoint text of a WireGuard outbound, looked up. */
  function Dialled(outbound: Json, links: Links): Option<(string, nat)> {
    var settings := outbound.Get("settings");
    var peer := if settings.Some? then First(settings.value.GetArr("peers")) else None;
    var text := Or(JsonStrIn(peer, "endpoint"), "");
    if text in links.endpoints then Some(links.endpoints[text]) else None
  }

  function ParseFirst(outbounds: seq<Json>, links: Links): Option<Server> {
    if outbounds == [] then None
    else if ParseOutbound(outbounds[0], Dialled(outbounds[0], links)).Some?
      then ParseOutbound(outbounds[0], Dialled(outbounds[0], links))
    else ParseFirst(outbounds[1..], links)
  }

  function Flatten(lists: seq<seq<Server>>): seq<Server> {
    if lists == [] then [] else lists[0] + Flatten(lists[1..])
  }

  /** A whole profile is one location; anything else is searched for outbounds and links. */
  function Collect(value: Json, depth: nat, links: Links): seq<Server>
    decreases value
  {
    if depth > MAX_DEPTH then []
    else match value
      case Arr(items) => Flatten(seq(|items|, i requires 0 <= i < |items| => Collect(items[i], depth + 1, links)))
      case Str(text) => if Trim(text) in links.servers then [links.servers[Trim(text)]] else []
      case Obj(fields) =>
        var listed := Obj(fields).GetArr("outbounds");
        var proxies := if listed.Some? then ProxiesAmong(listed.value) else [];
        if proxies != [] then
          var first := ParseFirst(proxies, links);
          if first.None? then [] else [first.value.(rawOutbound := Some(proxies[0]), rawProfile := Some(value))]
        else if IsProxy(value) then
          var parsed := ParseOutbound(value, Dialled(value, links));
          if parsed.None? then [] else [parsed.value.(rawOutbound := Some(value))]
        else
          (if "outbounds" in fields then Collect(fields["outbounds"], depth + 1, links) else [])
          + Flatten(seq(|WRAPPER_KEYS|, i requires 0 <= i < |WRAPPER_KEYS| =>
              if WRAPPER_KEYS[i] in fields then Collect(fields[WRAPPER_KEYS[i]], depth + 1, links) else []))
      case _ => []
  }

  ghost predicate AllConsistent(servers: seq<Server>) {
    forall i | 0 <= i < |servers| :: Consistent(servers[i])
  }

  lemma {:induction false} FlattenConsistent(lists: seq<seq<Server>>)
    requires forall i | 0 <= i < |lists| :: AllConsistent(lists[i])
    ensures AllConsistent(Flatten(lists))
  {
    hide Consistent;
    if lists != [] {
      FlattenConsistent(lists[1..]);
    }
  }

  lemma HeadHasNoProfile(outbound: Json, dialled: Option<(string, nat)>)
    ensures ParseHead(outbound, dialled).Some? ==> ParseHead(outbound, dialled).value.rawProfile.None?
  {
    hide JsonStr, JsonPort, JsonStrAny, First, DirectOrFirst, JsonStrIn, With, Decimal, Or;
  }

  lemma StreamKeepsProfile(s: Server, stream: Option<Json>)
    ensures ApplyStream(s, stream).rawProfile == s.rawProfile
  {
    hide JsonStr, With, Texts, JoinWith, Or, NormalizeNetwork;
  }

  lemma ParsedHasNoProfile(outbound: Json, dialled: Option<(string, nat)>)
    requires ParseOutbound(outbound, dialled).Some?
    ensures ParseOutbound(outbound, dialled).value.rawProfile.None?
  {
    hide ParseHead, ApplyStream, IsSentinel;
    HeadHasNoProfile(outbound, dialled);
    StreamKeepsProfile(ParseHead(outbound, dialled).value, outbound.Get("streamSettings"));
  }

  lemma ProfileConsistent(server: Server, value: Json)
    requires value.GetArr("outbounds").Some? && ProxiesAmong(value.GetArr("outbounds").value) != []
    ensures Consistent(server.(rawOutbound := Some(ProxiesAmong(value.GetArr("outbounds").value)[0]),
                               rawProfile := Some(value)))
  {
    var proxy := ProxiesAmong(value.GetArr("outbounds").value)[0];
    assert proxy in value.GetArr("outbounds").value;
    LowerOfProtocols();
    assert Provider.ProtocolOf(proxy) == proxy.GetStr("protocol").value;
  }

  /** The location of a whole profile, and that of a single outbound. */
  lemma ObjectConsistent(value: Json, links: Links)
    requires value.Obj?
    ensures var listed := value.GetArr("outbounds");
            var proxies := if listed.Some? then ProxiesAmong(listed.value) else [];
            && (proxies != [] && ParseFirst(proxies, links).Some? ==>
                  Consistent(ParseFirst(proxies, links).value.(rawOutbound := Some(proxies[0]),
                                                               rawProfile := Some(value))))
            && (ParseOutbound(value, Dialled(value, links)).Some? ==>
                  Consistent(ParseOutbound(value, Dialled(value, links)).value.(rawOutbound := Some(value))))
  {
    hide Consistent, ParseOutbound, ProxiesAmong;
    var listed := value.GetArr("outbounds");
    var proxies := if listed.Some? then ProxiesAmong(listed.value) else [];
    if proxies != [] && ParseFirst(proxies, links).Some? {
      ProfileConsistent(ParseFirst(proxies, links).value, value);
    }
    if ParseOutbound(value, Dialled(value, links)).Some? {
      ParsedHasNoProfile(value, Dialled(value, links));
      NoProfileConsistent(ParseOutbound(value, Dialled(value, links)).value.(rawOutbound := Some(value)));
    }
  }

  lemma AppendConsistent(servers: seq<Server>, more: seq<Server>)
    requires AllConsistent(servers) && AllConsistent(more)
    ensures AllConsistent(servers + more)
  {
    hide Consistent;
  }

  lemma OneConsistent(server: Server)
    requires Consistent(server)
    ensures AllConsistent([server])
  {}

  /** The parsers of share links make locations without a profile. */
  ghost predicate LinksAreBare(links: Links) {
    forall text | text in links.servers :: links.servers[text].rawProfile.None?
  }

  lemma ArrayConsistent(items: seq<Json>, depth: nat, links: Links)
    requires depth <= MAX_DEPTH && LinksAreBare(links)
    ensures AllConsistent(Collect(Arr(items), depth, links))
    decreases Arr(items), 0
  {
    hide AllConsistent, ParseOutbound, ProxiesAmong, ParseFirst, IsProxy, Dialled, LinksAreBare;
    var lists := seq(|items|, i requires 0 <= i < |items| => Collect(items[i], depth + 1, links));
    forall i | 0 <= i < |items|
      ensures AllConsistent(lists[i])
    {
      CollectedConsistent(items[i], depth + 1, links);
    }
    FlattenConsistent(lists);
  }

  /** What an object wraps, if it is neither a profile nor an outbound. */
  lemma WrapperConsistent(fields: map<string, Json>, depth: nat, links: Links)
    requires depth <= MAX_DEPTH && LinksAreBare(links)
    ensures AllConsistent(
              (if "outbounds" in fields then Collect(fields["outbounds"], depth + 1, links) else [])
              + Flatten(seq(|WRAPPER_KEYS|, i requires 0 <= i < |WRAPPER_KEYS| =>
                  if WRAPPER_KEYS[i] in fields then Collect(fields[WRAPPER_KEYS[i]], depth + 1, links) else [])))
    decreases Obj(fields), 0
  {
    hide Collect, AllConsistent, LinksAreBare;
    var outbounds := if "outbounds" in fields then Collect(fields["outbounds"], depth + 1, links) else [];
    var lists := seq(|WRAPPER_KEYS|, i requires 0 <= i < |WRAPPER_KEYS| =>
      if WRAPPER_KEYS[i] in fields then Collect(fields[WRAPPER_KEYS[i]], depth + 1, links) else []);
    NoneConsistent();
    if "outbounds" in fields {
      CollectedConsistent(fields["outbounds"], depth + 1, links);
    }
    forall i | 0 <= i < |WRAPPER_KEYS|
      ensures AllConsistent(lists[i])
    {
      if WRAPPER_KEYS[i] in fields {
        CollectedConsistent(fields[WRAPPER_KEYS[i]], depth + 1, links);
      }
    }
    FlattenConsistent(lists);
    AppendConsistent(outbounds, Flatten(lists));
  }

  lemma NoneConsistent()
    ensures AllConsistent([])
  {}

  lemma FieldsConsistent(fields: map<string, Json>, depth: nat, links: Links)
    requires depth <= MAX_DEPTH && LinksAreBare(links)
    ensures AllConsistent(Collect(Obj(fields), depth, links))
    decreases Obj(fields), 1
  {
    hide AllConsistent, Consistent, ParseOutbound, ProxiesAmong, ParseFirst, IsProxy, Dialled, LinksAreBare, Flatten;
    var value := Obj(fields);
    ObjectConsistent(value, links);
    NoneConsistent();
    var listed := value.GetArr("outbounds");
    var proxies := if listed.Some? then ProxiesAmong(listed.value) else [];
    if proxies != [] {
      var first := ParseFirst(proxies, links);
      if first.Some? {
        OneConsistent(first.value.(rawOutbound := Some(proxies[0]), rawProfile := Some(value)));
      }
    } else if IsProxy(value) {
      var parsed := ParseOutbound(value, Dialled(value, links));
      if parsed.Some? {
        OneConsistent(parsed.value.(rawOutbound := Some(value)));
      }
    } else {
      WrapperConsistent(fields, depth, links);
    }
  }

  /** Every location found in JSON is consistent, so planning it never panics. */
  lemma {:induction false} CollectedConsistent(value: Json, depth: nat, links: Links)
    requires LinksAreBare(links)
    ensures AllConsistent(Collect(value, depth, links))
    decreases value, 2
  {
    hide AllConsistent, Consistent;
    NoneConsistent();
    if depth <= MAX_DEPTH {
      match value
      case Arr(items) =>
        ArrayConsistent(items, depth, links);
      case Str(text) =>
        if Trim(text) in links.servers {
          NoProfileConsistent(links.servers[Trim(text)]);
          OneConsistent(links.servers[Trim(text)]);
        }
      case Obj(fields) =>
        FieldsConsistent(fields, depth, links);
      case _ =>
    }
  }

  lemma NoProfileConsistent(server: Server)
    requires server.rawProfile.None?
    ensures Consistent(server)
  {}
}
