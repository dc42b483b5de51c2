/**
 What the service's inspection and rewrite mean for the values in a configuration, key by key
 (crates/varmlen-service-core/src/runtime.rs).
 */
module Rewrite {
  import opened Wrappers
  import opened Json
  import opened Paths
  import opened Text
  import opened Runtime

  /** A field, however deep, by which Xray would open a file. */
  predicate NamesAFile(value: Json, path: seq<Step>) {
    && path != [] && At(value, path).Some?
    && path[|path| - 1].Key?
    && Lower(path[|path| - 1].key) in {"file", "certificatefile", "keyfile", "cafile", "certfile"}
  }

  /** A configuration passes the service's file check exactly when no path through it ends in such a field. */
  lemma NoFileExactlyWhen(value: Json)
    ensures NoFileReferences(value) <==> forall path :: !NamesAFile(value, path)
  {
    hide NoFileReferences, NamesAFile;
    if NoFileReferences(value) {
      forall path
        ensures !NamesAFile(value, path)
      {
        NoFileOnPath(value, path);
      }
    } else {
      var path := PathToFile(value);
    }
  }

  lemma {:induction false} NoFileOnPath(value: Json, path: seq<Step>)
    requires NoFileReferences(value)
    ensures !NamesAFile(value, path)
    decreases |path|
  {
    if |path| > 1 && At(value, path).Some? {
      var inner := match path[0] case Key(key) => value.fields[key] case Index(i) => value.items[i];
      assert NoFileReferences(inner);
      NoFileOnPath(inner, path[1..]);
      assert path[1..][|path| - 2] == path[|path| - 1];
    } else if |path| == 1 {
      assert path[1..] == [];
    }
  }

  lemma {:induction false} PathToFile(value: Json) returns (path: seq<Step>)
    requires !NoFileReferences(value)
    ensures NamesAFile(value, path)
  {
    match value
    case Obj(fields) =>
      if key :| key in fields && Lower(key) in FILE_KEYS {
        path := [Key(key)];
        assert path[1..] == [];
      } else {
        var key :| key in fields && !NoFileReferences(fields[key]);
        var rest := PathToFile(fields[key]);
        path := [Key(key)] + rest;
        assert path[1..] == rest;
      }
    case Arr(items) =>
      var i :| 0 <= i < |items| && !NoFileReferences(items[i]);
      var rest := PathToFile(items[i]);
      path := [Index(i)] + rest;
      assert path[1..] == rest;
  }

  /** A list of texts, none of them empty, with these among them. */
  predicate Lists(value: Option<Json>, wanted: set<string>) {
    && value.Some? && value.value.Arr?
    && (forall item | item in value.value.items :: item.Str? && item.text != "")
    && forall text | text in wanted :: Str(text) in value.value.items
  }

  /** Only known top-level fields, a log without files, and no file anywhere. */
  ghost predicate Contained(config: Json) {
    && config.Obj?
    && (forall key | config.Get(key).Some? ::
          key in {"log", "dns", "inbounds", "outbounds", "routing", "observatory", "burstObservatory"})
    && (forall log | config.Get("log") == Some(log) ::
          log.Obj? && forall key | log.Get(key).Some? :: key == "loglevel")
    && forall path :: !NamesAFile(config, path)
  }

  lemma ContainedExactlyWhen(config: Json)
    ensures Contained(config) <==>
              && config.Obj? && config.fields.Keys <= NATIVE_FIELDS
              && LogAllowed(config.fields) && NoFileReferences(config)
  {
    hide NoFileReferences, NamesAFile;
    NoFileExactlyWhen(config);
    assert forall key :: config.Get(key).Some? <==> config.Obj? && key in config.fields;
    if config.Obj? && "log" in config.fields {
      assert forall key :: config.fields["log"].Get(key).Some? <==>
          config.fields["log"].Obj? && key in config.fields["log"].fields;
    }
  }

  /** Varmlen's own TUN, with the addresses, the resolver and the routes that the service will set itself. */
  predicate OwnTun(inbound: Json) {
    var settings := In(inbound, "settings");
    && inbound.GetStr("protocol") == Some("tun")
    && settings.GetStr("name") == Some("Varmlen")
    && settings.GetStr("desc") == Some("Varmlen")
    && Lists(settings.Get("gateway"), {"10.255.0.1/30", "fd00:7661:726d:6c65::1/64"})
    && Lists(settings.Get("dns"), {"1.1.1.1"})
    && Lists(settings.Get("autoSystemRoutingTable"), {"0.0.0.0/0", "::/0"})
    && settings.GetStr("autoOutboundsInterface") == Some("auto")
  }

  /** The service takes a configuration for the tunnel exactly if it is contained and listens on Varmlen's TUN alone. */
  lemma TunnelAcceptedExactlyWhen(config: Json)
    ensures InspectNativeTunConfig(config).Done? <==>
              && Contained(config)
              && config.GetArr("inbounds").Some? && |config.GetArr("inbounds").value| == 1
              && OwnTun(config.GetArr("inbounds").value[0])
  {
    hide NoFileReferences, Contained, StringArrayWith, Lists;
    ContainedExactlyWhen(config);
    if config.GetArr("inbounds").Some? && |config.GetArr("inbounds").value| == 1 {
      var settings := In(config.GetArr("inbounds").value[0], "settings");
      ListsBoth(settings.Get("gateway"), "10.255.0.1/30", "fd00:7661:726d:6c65::1/64");
      ListsBoth(settings.Get("dns"), "1.1.1.1", "1.1.1.1");
      ListsBoth(settings.Get("autoSystemRoutingTable"), "0.0.0.0/0", "::/0");
      assert {"1.1.1.1", "1.1.1.1"} == {"1.1.1.1"};
    }
  }

  lemma ListsBoth(value: Option<Json>, a: string, b: string)
    ensures StringArrayWith(value, a) && StringArrayWith(value, b) <==> Lists(value, {a, b})
  {
    if value.Some? && value.value.Arr? {
      assert forall i | 0 <= i < |value.value.items| :: value.value.items[i] in value.value.items;
    }
  }

  lemma {:induction false} NoSocksExactlyWhen(inbounds: seq<Json>)
    ensures CountSocks(inbounds) == 0 <==> forall i | 0 <= i < |inbounds| :: !IsSocks(inbounds[i])
  {
    hide IsSocks;
    if inbounds != [] {
      NoSocksExactlyWhen(inbounds[1..]);
      assert forall i | 0 < i < |inbounds| :: inbounds[i] == inbounds[1..][i - 1];
    }
  }

  /** The only SOCKS inbound is at `socks`. */
  ghost predicate OnlySocks(inbounds: seq<Json>, socks: nat) {
    socks < |inbounds| && forall i | 0 <= i < |inbounds| :: IsSocks(inbounds[i]) <==> i == socks
  }

  lemma {:induction false} FindSocks(inbounds: seq<Json>) returns (socks: nat)
    requires CountSocks(inbounds) == 1
    ensures OnlySocks(inbounds, socks)
  {
    hide IsSocks;
    var rest := inbounds[1..];
    assert forall i | 0 < i < |inbounds| :: inbounds[i] == rest[i - 1];
    if IsSocks(inbounds[0]) {
      NoSocksExactlyWhen(rest);
      socks := 0;
    } else {
      socks := FindSocks(rest);
      socks := socks + 1;
    }
  }

  lemma {:induction false} OnlySocksCounts(inbounds: seq<Json>, socks: nat)
    requires OnlySocks(inbounds, socks)
    ensures CountSocks(inbounds) == 1
  {
    hide IsSocks;
    var rest := inbounds[1..];
    assert forall i | 0 <= i < |rest| :: rest[i] == inbounds[i + 1];
    if socks == 0 {
      NoSocksExactlyWhen(rest);
    } else {
      OnlySocksCounts(rest, socks - 1);
    }
  }

  /** A preflight is taken exactly if it is contained and opens one port, for SOCKS, to this machine alone. */
  lemma PreflightAcceptedExactlyWhen(config: Json)
    ensures InspectValidationConfig(config).Done? <==>
              && Contained(config)
              && config.GetArr("inbounds").Some?
              && (forall inbound | inbound in config.GetArr("inbounds").value ::
                    && inbound.GetStr("protocol") != Some("tun")
                    && inbound.GetStr("listen") in {Some("127.0.0.1"), Some("::1")}
                    && (inbound.GetStr("protocol") == Some("socks") ==>
                          inbound.Get("port").Some? && inbound.Get("port").value.Number?
                          && 1 <= inbound.Get("port").value.value <= 65535))
              && exists socks :: OnlySocks(config.GetArr("inbounds").value, socks)
  {
    hide NoFileReferences, Contained;
    ContainedExactlyWhen(config);
    if config.GetArr("inbounds").Some? {
      var inbounds := config.GetArr("inbounds").value;
      assert forall i | 0 <= i < |inbounds| :: inbounds[i] in inbounds;
      if CountSocks(inbounds) == 1 {
        var socks := FindSocks(inbounds);
      }
      forall socks | OnlySocks(inbounds, socks)
        ensures CountSocks(inbounds) == 1
      {
        OnlySocksCounts(inbounds, socks);
      }
    }
  }

  /** An outbound that dials does so by one interface, and keeps everything else; any other is kept as it is. */
  ghost predicate Rebound(outbound: Json, bound: Json, name: string) {
    if outbound.GetStr("protocol") in {Some("blackhole"), Some("dns")} then bound == outbound
    else
      var stream, boundStream := In(outbound, "streamSettings"), In(bound, "streamSettings");
      && SameBut(outbound, bound, "streamSettings")
      && SameBut(stream, boundStream, "sockopt")
      && SameBut(In(stream, "sockopt"), In(boundStream, "sockopt"), "interface")
      && In(boundStream, "sockopt").Get("interface") == Some(Str(name))
  }

  /** Of an inbound, the settings that the service takes over are gone and everything else is kept. */
  ghost predicate Stripped(inbound: Json, bare: Json) {
    var settings, left := In(inbound, "settings"), In(bare, "settings");
    && SameBut(inbound, bare, "settings")
    && settings.Obj? && left.Obj?
    && forall key: string ::
         left.Get(key) ==
           if key in {"desc", "gateway", "dns", "autoSystemRoutingTable", "autoOutboundsInterface"} then None
           else settings.Get(key)
  }

  /** Everything that the rewrite of a configuration changes. */
  lemma RewriteChangesOnly(config: Json, interfaceName: string)
    requires RewriteNativeOutboundInterface(config, interfaceName).Ok?
    ensures var effective := RewriteNativeOutboundInterface(config, interfaceName).value;
            var before, after := config.GetArr("inbounds"), effective.GetArr("inbounds");
            var dialled, bound := config.GetArr("outbounds"), effective.GetArr("outbounds");
            && config.Obj? && effective.Obj?
            && (forall key | key !in {"inbounds", "outbounds"} :: effective.Get(key) == config.Get(key))
            && before.Some? && after.Some? && |before.value| == |after.value| == 1
            && Stripped(before.value[0], after.value[0])
            && dialled.Some? && bound.Some? && |bound.value| == |dialled.value|
            && forall i | 0 <= i < |dialled.value| :: Rebound(dialled.value[i], bound.value[i], Trim(interfaceName))
  {
    hide NoFileReferences, TunSettingsAllowed, BindOutbound, StripTun, ValidInterfaceName, Trim, Rebound, Stripped;
    var inbound, name := config.GetArr("inbounds").value[0], Trim(interfaceName);
    SettingsAreObject(inbound.Get("settings").value);
    StripTunStrips(inbound);
    var outbounds := config.GetArr("outbounds").value;
    forall i | 0 <= i < |outbounds|
      ensures Rebound(outbounds[i], BindOutbound(outbounds[i], name), name)
    {
      BindOutboundRebinds(outbounds[i], name);
    }
  }

  lemma StripTunStrips(inbound: Json)
    requires inbound.Get("settings").Some? && inbound.Get("settings").value.Obj?
    ensures Stripped(inbound, StripTun(inbound))
  {}

  lemma BindOutboundRebinds(outbound: Json, name: string)
    requires Bindable(outbound)
    ensures Rebound(outbound, BindOutbound(outbound, name), name)
  {}

  /** The rewrite succeeds exactly for an accepted configuration, a usable name and outbounds that can be bound. */
  lemma RewriteSucceedsExactlyWhen(config: Json, interfaceName: string)
    ensures RewriteNativeOutboundInterface(config, interfaceName).Ok? <==>
              && InspectNativeTunConfig(config).Done?
              && 0 < |Trim(interfaceName)| && Utf8Length(Trim(interfaceName)) <= 256
              && (forall c | c in Trim(interfaceName) :: !IsControl(c))
              && config.GetArr("outbounds").Some?
              && forall outbound | outbound in config.GetArr("outbounds").value ::
                   || outbound.GetStr("protocol") in {Some("blackhole"), Some("dns")}
                   || (outbound.Obj? && In(outbound, "streamSettings").Obj?
                       && In(In(outbound, "streamSettings"), "sockopt").Obj?)
  {
    hide InspectNativeTunConfig, Trim, Utf8Length, IsControl, StripTun, BindOutbound;
    if InspectNativeTunConfig(config).Done? {
      AcceptedHasTun(config);
    }
    assert forall outbound: Json :: Bindable(outbound) <==>
        || outbound.GetStr("protocol") in {Some("blackhole"), Some("dns")}
        || (outbound.Obj? && In(outbound, "streamSettings").Obj?
            && In(In(outbound, "streamSettings"), "sockopt").Obj?);
  }

  lemma AcceptedHasTun(config: Json)
    requires InspectNativeTunConfig(config).Done?
    ensures config.Obj? && config.GetArr("inbounds").Some? && |config.GetArr("inbounds").value| == 1
    ensures config.GetArr("inbounds").value[0].Get("settings").Some?
    ensures config.GetArr("inbounds").value[0].Get("settings").value.Obj?
  {
    hide NoFileReferences;
  }
}
