/**
 What cleaning an outbound of a provider refuses and what it leaves alone, key by key
 (src-tauri/src/xray.rs, `sanitize_raw_outbound`).
 */
module Cleaning {
  import opened Wrappers
  import opened Json
  import opened Text
  import opened Paths
  import opened Outbound
  import opened Provider

  /** The field at the end of the path, however deep, makes Xray open a file or skip a certificate check. */
  predicate Harms(value: Json, path: seq<Step>) {
    && path != [] && At(value, path).Some? && path[|path| - 1].Key?
    && var key := Lower(path[|path| - 1].key);
       || EndsWith(key, "file") || EndsWith(key, "filepath") || key == "masterkeylog"
       || (key == "allowinsecure" && Insecure(At(value, path).value))
  }

  lemma {:induction false} HarmlessOnPath(value: Json, path: seq<Step>)
    requires Harmless(value)
    ensures !Harms(value, path)
    decreases |path|
  {
    hide Insecure, EndsWith;
    if |path| > 1 && At(value, path).Some? {
      var inner := match path[0] case Key(key) => value.fields[key] case Index(i) => value.items[i];
      assert Harmless(inner);
      HarmlessOnPath(inner, path[1..]);
      assert path[1..][|path| - 2] == path[|path| - 1];
    } else if |path| == 1 && path[0].Key? && value.Get(path[0].key).Some? {
      assert At(value, path) == At(value.Get(path[0].key).value, path[1..]) == value.Get(path[0].key);
    }
  }

  lemma HarmExtends(value: Json, step: Step, inner: Json, rest: seq<Step>)
    requires Harms(inner, rest)
    requires At(value, [step]) == Some(inner)
    ensures Harms(value, [step] + rest)
  {
    hide Insecure;
    assert ([step] + rest)[1..] == rest && [step][1..] == [];
  }

  lemma {:induction false} PathToHarm(value: Json) returns (path: seq<Step>)
    requires !Harmless(value)
    ensures Harms(value, path)
  {
    hide Harms, Insecure;
    match value
    case Obj(fields) =>
      if key :| key in fields && (NamesFile(key) || (Lower(key) == "allowinsecure" && Insecure(fields[key]))) {
        path := [Key(key)];
        assert path[1..] == [];
        HarmHere(value, key);
      } else {
        var key :| key in fields && !Harmless(fields[key]);
        var rest := PathToHarm(fields[key]);
        path := [Key(key)] + rest;
        assert [Key(key)][1..] == [];
        HarmExtends(value, Key(key), fields[key], rest);
      }
    case Arr(items) =>
      var i :| 0 <= i < |items| && !Harmless(items[i]);
      var rest := PathToHarm(items[i]);
      path := [Index(i)] + rest;
      assert [Index(i)][1..] == [];
      HarmExtends(value, Index(i), items[i], rest);
  }

  lemma HarmHere(value: Json, key: string)
    requires value.Get(key).Some?
    requires NamesFile(key) || (Lower(key) == "allowinsecure" && Insecure(value.Get(key).value))
    ensures Harms(value, [Key(key)])
  {
    hide Insecure, EndsWith;
    var path := [Key(key)];
    assert At(value, path) == At(value.Get(key).value, path[1..]) == value.Get(key);
  }

  /** What the client refuses for its own sake is exactly a harmful field somewhere. */
  lemma HarmlessExactlyWhen(value: Json)
    ensures Harmless(value) <==> forall path :: !Harms(value, path)
  {
    hide Harmless, Harms;
    if Harmless(value) {
      forall path
        ensures !Harms(value, path)
      {
        HarmlessOnPath(value, path);
      }
    } else {
      var path := PathToHarm(value);
    }
  }

  /** An outbound is taken exactly if it speaks a proxy protocol, in any case, and nothing in it harms. */
  lemma CleanedExactlyWhen(outbound: Json, preserve: bool)
    ensures SanitizeRawOutbound(outbound, preserve).Ok? <==>
              && (forall path :: !Harms(outbound, path))
              && outbound.GetStr("protocol").Some?
              && Lower(outbound.GetStr("protocol").value) in PROXY_PROTOCOLS
  {
    hide Harmless, Harms, ForbiddenFileReference, InsecureTlsOverride;
    HarmlessExactlyWhen(outbound);
    HarmlessMeans(outbound);
  }

  /** The object in a field; a field that is missing or holds anything else counts as an empty one. */
  function ObjectIn(value: Json, key: string): Json {
    if value.Get(key).Some? && value.Get(key).value.Obj? then value.Get(key).value else Obj(map[])
  }

  /**
   Everything that cleaning changes: where an outbound that is used alone is sent through and what it is chained
   to, its name, its firewall mark, and for WireGuard its stream settings.
   */
  lemma CleaningKeeps(outbound: Json, preserve: bool)
    requires SanitizeRawOutbound(outbound, preserve).Ok?
    ensures var clean := SanitizeRawOutbound(outbound, preserve).value;
            && clean.Obj?
            && (forall key: string ::
                  key !in {"sendThrough", "streamSettings"} && (preserve || key !in {"proxySettings", "tag"}) ==>
                    clean.Get(key) == outbound.Get(key))
            && clean.Get("sendThrough").None?
            && (!preserve ==> clean.Get("proxySettings").None? && clean.Get("tag") == Some(Str("proxy")))
            && if Lower(outbound.GetStr("protocol").value) == "wireguard" then clean.Get("streamSettings").None?
               else
                 var stream, kept := ObjectIn(outbound, "streamSettings"), clean.Get("streamSettings");
                 var sockopt := ObjectIn(stream, "sockopt");
                 && kept.Some? && SameBut(stream, kept.value, "sockopt")
                 && kept.value.Get("sockopt").Some? && kept.value.Get("sockopt").value.Obj?
                 && forall key: string ::
                      kept.value.Get("sockopt").value.Get(key) ==
                        if key == "mark" || (key == "dialerProxy" && !preserve) then None else sockopt.Get(key)
  {
    hide ForbiddenFileReference, InsecureTlsOverride, NamesFile;
  }
}
