/**
 Where in a JSON subscription locations are looked for: every place within the depth, once and in the order of the
 document (src-tauri/src/subscription.rs, `collect_json_servers`).
 */
module Places {
  import opened Wrappers
  import opened Json
  import opened Text
  import opened Outbound
  import opened Parser
  import opened Paths
  import opened Locations

  const SEARCHED: seq<string> := ["outbounds", "servers", "links", "proxies", "configs", "list"]

  /** A profile: some outbound it lists is a proxy. */
  predicate IsProfile(value: Json) {
    && value.GetArr("outbounds").Some?
    && exists outbound | outbound in value.GetArr("outbounds").value :: IsProxy(outbound)
  }

  function Present(fields: map<string, Json>, keys: seq<string>): (r: seq<Step>)
    ensures forall step | step in r :: step.Key? && step.key in fields && step.key in keys
  {
    if keys == [] then [] else (if keys[0] in fields then [Key(keys[0])] else []) + Present(fields, keys[1..])
  }

  /** How the search goes on from a value: into every element, or into the keys it knows; never into a location. */
  function Steps(value: Json): (r: seq<Step>)
    ensures forall step | step in r :: At(value, [step]).Some?
  {
    match value
    case Arr(items) => seq(|items|, i requires 0 <= i < |items| => Index(i))
    case Obj(fields) => if IsProfile(value) || IsProxy(value) then [] else Present(fields, SEARCHED)
    case _ => []
  }

  /** What the value is by itself: a link, a whole profile or one outbound. */
  function Found(value: Json, links: Links): seq<Server> {
    match value
    case Str(text) => if Trim(text) in links.servers then [links.servers[Trim(text)]] else []
    case Obj(_) =>
      if IsProfile(value) then
        var proxies := ProxiesAmong(value.GetArr("outbounds").value);
        var first := ParseFirst(proxies, links);
        if first.None? || proxies == [] then []
        else [first.value.(rawOutbound := Some(proxies[0]), rawProfile := Some(value))]
      else if IsProxy(value) then
        var parsed := ParseOutbound(value, Dialled(value, links));
        if parsed.None? then [] else [parsed.value.(rawOutbound := Some(value))]
      else []
    case _ => []
  }

  function Child(value: Json, step: Step): Json
    requires step in Steps(value)
  {
    match step
    case Key(key) => value.fields[key]
    case Index(i) => value.items[i]
  }

  /** What is left of the depth. */
  function Room(depth: nat): nat {
    if depth > MAX_DEPTH then 0 else MAX_DEPTH + 1 - depth
  }

  function Prefixed(step: Step, places: seq<seq<Step>>): (r: seq<seq<Step>>)
    ensures |r| == |places| && forall i | 0 <= i < |r| :: r[i] == [step] + places[i]
  {
    seq(|places|, i requires 0 <= i < |places| => [step] + places[i])
  }

  /** The places below a value that is `depth` deep, itself first. */
  function Places(value: Json, depth: nat): seq<seq<Step>>
    decreases Room(depth), 0, 0
  {
    if depth > MAX_DEPTH then [] else [[]] + Under(value, Steps(value), depth)
  }

  function Under(value: Json, steps: seq<Step>, depth: nat): seq<seq<Step>>
    requires depth <= MAX_DEPTH && forall step | step in steps :: step in Steps(value)
    decreases Room(depth + 1), 1, |steps|
  {
    if steps == [] then []
    else Prefixed(steps[0], Places(Child(value, steps[0]), depth + 1)) + Under(value, steps[1..], depth)
  }

  /** The locations found at these places, one place after the other. */
  function Harvest(value: Json, places: seq<seq<Step>>, links: Links): seq<Server> {
    if places == [] then []
    else
      (if At(value, places[0]).Some? then Found(At(value, places[0]).value, links) else [])
      + Harvest(value, places[1..], links)
  }

  /** The path goes on from place to place. */
  predicate Leads(value: Json, path: seq<Step>)
    decreases |path|
  {
    path == [] || (path[0] in Steps(value) && Leads(Child(value, path[0]), path[1..]))
  }

  /** `p` comes before `q` in the document: it is a part of the way, or branches off earlier. */
  ghost predicate Before(value: Json, p: seq<Step>, q: seq<Step>)
    decreases |p|
  {
    && q != []
    && (p == [] ||
        (if p[0] == q[0] then p[0] in Steps(value) && Before(Child(value, p[0]), p[1..], q[1..])
         else exists i, j | 0 <= i < j < |Steps(value)| :: Steps(value)[i] == p[0] && Steps(value)[j] == q[0]))
  }

  lemma {:induction false} HarvestConcat(value: Json, some: seq<seq<Step>>, more: seq<seq<Step>>, links: Links)
    ensures Harvest(value, some + more, links) == Harvest(value, some, links) + Harvest(value, more, links)
  {
    hide Found, At;
    if some == [] {
      assert some + more == more;
    } else {
      assert (some + more)[1..] == some[1..] + more;
      HarvestConcat(value, some[1..], more, links);
    }
  }

  lemma AtStep(value: Json, step: Step, path: seq<Step>)
    requires step in Steps(value)
    ensures At(value, [step] + path) == At(Child(value, step), path)
  {
    assert ([step] + path)[1..] == path && [step][1..] == [];
    assert At(value, [step]).Some?;
  }

  lemma {:induction false} HarvestPrefixed(value: Json, step: Step, places: seq<seq<Step>>, links: Links)
    requires step in Steps(value)
    ensures Harvest(value, Prefixed(step, places), links) == Harvest(Child(value, step), places, links)
  {
    hide Found, At, Child, Steps;
    if places != [] {
      AtStep(value, step, places[0]);
      assert Prefixed(step, places)[1..] == Prefixed(step, places[1..]);
      HarvestPrefixed(value, step, places[1..], links);
    }
  }

  lemma UnderSplit(value: Json, steps: seq<Step>, depth: nat, links: Links)
    requires depth <= MAX_DEPTH && steps != [] && forall step | step in steps :: step in Steps(value)
    ensures Harvest(value, Under(value, steps, depth), links)
            == Harvest(Child(value, steps[0]), Places(Child(value, steps[0]), depth + 1), links)
               + Harvest(value, Under(value, steps[1..], depth), links)
  {
    hide Found, At, Child, Steps, Places;
    var first := Places(Child(value, steps[0]), depth + 1);
    HarvestPrefixed(value, steps[0], first, links);
    HarvestConcat(value, Prefixed(steps[0], first), Under(value, steps[1..], depth), links);
  }

  /** The elements of an array from `k` on. */
  lemma {:induction false} ElementsHarvested(items: seq<Json>, k: nat, depth: nat, links: Links)
    requires k <= |items| && depth <= MAX_DEPTH
    ensures Flatten(seq(|items| - k, i requires 0 <= i < |items| - k => Collect(items[k + i], depth + 1, links)))
            == Harvest(Arr(items), Under(Arr(items), Steps(Arr(items))[k..], depth), links)
    decreases Room(depth + 1), 1, |items| - k
  {
    hide Collect, Places, Harvest, At;
    if k < |items| {
      var value, steps := Arr(items), Steps(Arr(items))[k..];
      assert steps[0] == Index(k) && steps[1..] == Steps(value)[k + 1..];
      UnderSplit(value, steps, depth, links);
      CollectedFromPlaces(items[k], depth + 1, links);
      ElementsHarvested(items, k + 1, depth, links);
      var lists := seq(|items| - k, i requires 0 <= i < |items| - k => Collect(items[k + i], depth + 1, links));
      assert lists[1..]
        == seq(|items| - (k + 1), i requires 0 <= i < |items| - (k + 1) => Collect(items[k + 1 + i], depth + 1, links));
    } else {
      assert Steps(Arr(items))[k..] == [];
      NothingHarvested(Arr(items), links);
    }
  }

  lemma NothingHarvested(value: Json, links: Links)
    ensures Harvest(value, [], links) == [] && Flatten([]) == []
  {}

  /** What the fields of an object hold, key by key. */
  function Gathered(fields: map<string, Json>, keys: seq<string>, depth: nat, links: Links): (r: seq<seq<Server>>)
    ensures |r| == |keys|
    ensures forall i | 0 <= i < |keys| ::
              r[i] == if keys[i] in fields then Collect(fields[keys[i]], depth, links) else []
  {
    seq(|keys|, i requires 0 <= i < |keys| =>
      if keys[i] in fields then Collect(fields[keys[i]], depth, links) else [])
  }

  /** The fields of an object under these keys. */
  lemma {:induction false} FieldsHarvested(fields: map<string, Json>, keys: seq<string>, depth: nat, links: Links)
    requires depth <= MAX_DEPTH && forall step | step in Present(fields, keys) :: step in Steps(Obj(fields))
    ensures Flatten(Gathered(fields, keys, depth + 1, links))
            == Harvest(Obj(fields), Under(Obj(fields), Present(fields, keys), depth), links)
    decreases Room(depth + 1), 1, |keys|
  {
    hide Collect, Places, Harvest, Steps, At, Gathered;
    var lists := Gathered(fields, keys, depth + 1, links);
    if keys == [] {
      NothingHarvested(Obj(fields), links);
    } else {
      var rest := keys[1..];
      assert lists[1..] == Gathered(fields, rest, depth + 1, links);
      FieldsHarvested(fields, rest, depth, links);
      if keys[0] in fields {
        assert Present(fields, keys)[0] == Key(keys[0]) && Present(fields, keys)[1..] == Present(fields, rest);
        UnderSplit(Obj(fields), Present(fields, keys), depth, links);
        CollectedFromPlaces(fields[keys[0]], depth + 1, links);
        assert Flatten(lists) == Collect(fields[keys[0]], depth + 1, links) + Flatten(lists[1..]);
      } else {
        assert Present(fields, keys) == Present(fields, rest);
        assert Flatten(lists) == Flatten(lists[1..]);
      }
    }
  }

  lemma ProfileExactlyWhen(value: Json)
    ensures IsProfile(value) <==>
              value.GetArr("outbounds").Some? && ProxiesAmong(value.GetArr("outbounds").value) != []
  {
    if value.GetArr("outbounds").Some? {
      ProxiesExactlyWhen(value.GetArr("outbounds").value);
    }
  }

  lemma {:induction false} ProxiesExactlyWhen(outbounds: seq<Json>)
    ensures ProxiesAmong(outbounds) != [] <==> exists outbound | outbound in outbounds :: IsProxy(outbound)
  {
    hide IsProxy;
    if outbounds != [] {
      ProxiesExactlyWhen(outbounds[1..]);
      assert outbounds == [outbounds[0]] + outbounds[1..];
    }
  }

  lemma ObjectHarvested(fields: map<string, Json>, depth: nat, links: Links)
    requires depth <= MAX_DEPTH
    ensures Collect(Obj(fields), depth, links)
            == Found(Obj(fields), links) + Harvest(Obj(fields), Under(Obj(fields), Steps(Obj(fields)), depth), links)
    decreases Room(depth + 1), 2, 0
  {
    hide Under, Harvest, ProxiesAmong, ParseFirst, ParseOutbound, Dialled, IsProfile, IsProxy, At;
    var value := Obj(fields);
    ProfileExactlyWhen(value);
    NothingHarvested(value, links);
    if IsProfile(value) || IsProxy(value) {
      assert Under(value, [], depth) == [] by { NothingUnder(value, depth); }
    } else {
      FieldsHarvested(fields, SEARCHED, depth, links);
      var lists := Gathered(fields, SEARCHED, depth + 1, links);
      assert lists[1..] == seq(|WRAPPER_KEYS|, i requires 0 <= i < |WRAPPER_KEYS| =>
        if WRAPPER_KEYS[i] in fields then Collect(fields[WRAPPER_KEYS[i]], depth + 1, links) else []);
    }
  }

  lemma NothingUnder(value: Json, depth: nat)
    requires depth <= MAX_DEPTH
    ensures Under(value, [], depth) == []
  {}

  lemma NothingLeft(value: Json, k: nat, depth: nat)
    requires depth <= MAX_DEPTH && k <= |Steps(value)|
    ensures k == |Steps(value)| ==> Under(value, Steps(value)[k..], depth) == []
  {
    hide Steps;
  }

  /** What a subscription is turned into is what is found at its places, in their order. */
  lemma {:induction false} CollectedFromPlaces(value: Json, depth: nat, links: Links)
    ensures Collect(value, depth, links) == Harvest(value, Places(value, depth), links)
    decreases Room(depth), 0, 0
  {
    hide Under, Found;
    NothingHarvested(value, links);
    if depth <= MAX_DEPTH {
      var under := Under(value, Steps(value), depth);
      assert Harvest(value, [[]] + under, links) == Found(value, links) + Harvest(value, under, links) by {
        assert ([[]] + under)[1..] == under;
      }
      NothingUnder(value, depth);
      match value
      case Arr(items) =>
        ElementsHarvested(items, 0, depth, links);
        assert Steps(value)[0..] == Steps(value);
        assert seq(|items| - 0, i requires 0 <= i < |items| - 0 => Collect(items[0 + i], depth + 1, links))
          == seq(|items|, i requires 0 <= i < |items| => Collect(items[i], depth + 1, links));
        FoundHere(value, links);
      case Obj(fields) =>
        ObjectHarvested(fields, depth, links);
      case _ =>
        FoundHere(value, links);
    }
  }

  lemma FoundHere(value: Json, links: Links)
    requires !value.Obj?
    ensures Found(value, links) ==
              if value.Str? && Trim(value.text) in links.servers then [links.servers[Trim(value.text)]] else []
  {}

  /** Exactly the paths that lead on from place to place are places, as deep as the search goes. */
  lemma {:induction false} PlacesExactlyWhen(value: Json, depth: nat, path: seq<Step>)
    ensures path in Places(value, depth) <==> Leads(value, path) && depth + |path| <= MAX_DEPTH
    decreases |path|
  {
    hide Steps, Child, Under;
    if depth <= MAX_DEPTH {
      if path == [] {
        assert Places(value, depth)[0] == [];
      } else {
        UnderExactlyWhen(value, Steps(value), depth, path);
        if path[0] in Steps(value) {
          PlacesExactlyWhen(Child(value, path[0]), depth + 1, path[1..]);
        }
      }
    }
  }

  lemma {:induction false} UnderExactlyWhen(value: Json, steps: seq<Step>, depth: nat, path: seq<Step>)
    requires depth <= MAX_DEPTH && path != [] && forall step | step in steps :: step in Steps(value)
    ensures path in Under(value, steps, depth) <==>
              path[0] in steps && path[1..] in Places(Child(value, path[0]), depth + 1)
    decreases |steps|
  {
    hide Steps, Child, Places;
    if steps != [] {
      UnderExactlyWhen(value, steps[1..], depth, path);
      assert steps == [steps[0]] + steps[1..];
      var places := Places(Child(value, steps[0]), depth + 1);
      PrefixedExactlyWhen(steps[0], places, path);
    }
  }

  lemma PrefixedExactlyWhen(step: Step, places: seq<seq<Step>>, path: seq<Step>)
    ensures path in Prefixed(step, places) <==> path != [] && path[0] == step && path[1..] in places
  {
    if path in Prefixed(step, places) {
      var i :| 0 <= i < |places| && path == [step] + places[i];
      assert path[1..] == places[i];
    }
    if path != [] && path[0] == step && path[1..] in places {
      var i :| 0 <= i < |places| && places[i] == path[1..];
      assert Prefixed(step, places)[i] == path;
    }
  }

  /** The places come in the order of the document, so no place comes twice. */
  lemma {:induction false} PlacesInOrder(value: Json, depth: nat, i: nat, j: nat)
    requires i < j < |Places(value, depth)|
    ensures Before(value, Places(value, depth)[i], Places(value, depth)[j])
    decreases Room(depth), 2, 0
  {
    hide Steps, Child, Under;
    var under := Under(value, Steps(value), depth);
    assert Steps(value)[0..] == Steps(value);
    if i > 0 {
      UnderInOrder(value, 0, depth, i - 1, j - 1);
    } else {
      UnderStarts(value, 0, depth, j - 1);
    }
  }

  predicate Distinct(keys: seq<string>) {
    forall i, j | 0 <= i < j < |keys| :: keys[i] != keys[j]
  }

  lemma DistinctTail(keys: seq<string>)
    requires Distinct(keys) && keys != []
    ensures Distinct(keys[1..]) && keys[0] !in keys[1..]
  {}

  lemma NonePresent(fields: map<string, Json>)
    ensures Present(fields, []) == []
  {}

  lemma PresentUnfolds(fields: map<string, Json>, keys: seq<string>)
    requires keys != []
    ensures Present(fields, keys) ==
              if keys[0] in fields then [Key(keys[0])] + Present(fields, keys[1..]) else Present(fields, keys[1..])
    ensures Key(keys[0]) in Present(fields, keys[1..]) ==> keys[0] in keys[1..]
  {}

  lemma {:induction false} PresentDistinct(fields: map<string, Json>, keys: seq<string>, i: nat, j: nat)
    requires Distinct(keys)
    requires i < j < |Present(fields, keys)|
    ensures Present(fields, keys)[i] != Present(fields, keys)[j]
  {
    hide Distinct, Present;
    if keys == [] {
      NonePresent(fields);
      return;
    }
    DistinctTail(keys);
    PresentUnfolds(fields, keys);
    var rest, more := keys[1..], Present(fields, keys[1..]);
    if keys[0] !in fields {
      PresentDistinct(fields, rest, i, j);
    } else if i > 0 {
      PresentDistinct(fields, rest, i - 1, j - 1);
    } else {
      assert more[j - 1] in more;
    }
  }

  lemma StepsDistinct(value: Json, i: nat, j: nat)
    requires i < j < |Steps(value)|
    ensures Steps(value)[i] != Steps(value)[j]
  {
    hide IsProfile, IsProxy, At;
    if value.Obj? {
      assert SEARCHED[0][0] == 'o' && SEARCHED[1][0] == 's' && SEARCHED[2] == "links" && SEARCHED[3][0] == 'p'
             && SEARCHED[4][0] == 'c' && SEARCHED[5] == "list" && SEARCHED[2][2] == 'n' && SEARCHED[5][2] == 's';
      assert Distinct(SEARCHED);
      PresentDistinct(value.fields, SEARCHED, i, j);
    }
  }

  /** Every place below the steps from `k` on begins with one of them. */
  lemma {:induction false} UnderStarts(value: Json, k: nat, depth: nat, j: nat)
    requires depth <= MAX_DEPTH && k <= |Steps(value)| && j < |Under(value, Steps(value)[k..], depth)|
    ensures var place := Under(value, Steps(value)[k..], depth)[j];
            place != [] && exists m | k <= m < |Steps(value)| :: place[0] == Steps(value)[m]
    decreases |Steps(value)| - k
  {
    hide Steps, Child, Places;
    NothingLeft(value, k, depth);
    if k < |Steps(value)| {
      var steps := Steps(value)[k..];
      assert steps[0] == Steps(value)[k] && steps[1..] == Steps(value)[k + 1..];
      var first := Places(Child(value, steps[0]), depth + 1);
      if j >= |first| {
        UnderStarts(value, k + 1, depth, j - |first|);
      }
    }
  }

  lemma {:induction false} UnderInOrder(value: Json, k: nat, depth: nat, i: nat, j: nat)
    requires depth <= MAX_DEPTH && k <= |Steps(value)| && i < j < |Under(value, Steps(value)[k..], depth)|
    ensures var under := Under(value, Steps(value)[k..], depth); Before(value, under[i], under[j])
    decreases Room(depth + 1), 3, |Steps(value)| - k
  {
    hide Steps, Child, Places;
    NothingLeft(value, k, depth);
    if k < |Steps(value)| {
      var steps := Steps(value)[k..];
      assert steps[0] == Steps(value)[k] && steps[1..] == Steps(value)[k + 1..];
      var first := Places(Child(value, steps[0]), depth + 1);
      var under := Under(value, steps, depth);
      if j < |first| {
        PlacesInOrder(Child(value, steps[0]), depth + 1, i, j);
        assert under[i] == [steps[0]] + first[i] && under[j] == [steps[0]] + first[j];
        assert under[i][1..] == first[i] && under[j][1..] == first[j];
      } else if i >= |first| {
        UnderInOrder(value, k + 1, depth, i - |first|, j - |first|);
      } else {
        UnderStarts(value, k + 1, depth, j - |first|);
        var m :| k + 1 <= m < |Steps(value)| && under[j][0] == Steps(value)[m];
        assert under[i] == [steps[0]] + first[i];
        StepsDistinct(value, k, m);
      }
    }
  }

  /** An outbound, as a location of its own. */
  function Parsed(outbound: Json, links: Links): Option<Server> {
    ParseOutbound(outbound, Dialled(outbound, links))
  }

  /** The first proxy of the list. */
  ghost predicate LeadsList(outbounds: seq<Json>, k: nat) {
    k < |outbounds| && IsProxy(outbounds[k]) && forall j | 0 <= j < k :: !IsProxy(outbounds[j])
  }

  /** The first proxy of the list that can be parsed. */
  ghost predicate ParsesFirst(outbounds: seq<Json>, links: Links, k: nat) {
    && k < |outbounds| && IsProxy(outbounds[k]) && Parsed(outbounds[k], links).Some?
    && forall j | 0 <= j < k && IsProxy(outbounds[j]) :: Parsed(outbounds[j], links).None?
  }

  lemma {:induction false} FirstProxy(outbounds: seq<Json>) returns (k: nat)
    requires ProxiesAmong(outbounds) != []
    ensures LeadsList(outbounds, k) && ProxiesAmong(outbounds)[0] == outbounds[k]
  {
    hide IsProxy;
    k := 0;
    if !IsProxy(outbounds[0]) {
      k := FirstProxy(outbounds[1..]);
      k := k + 1;
    }
  }

  lemma {:induction false} FirstParsed(outbounds: seq<Json>, links: Links) returns (k: nat)
    ensures match ParseFirst(ProxiesAmong(outbounds), links)
            case Some(server) => ParsesFirst(outbounds, links, k) && Parsed(outbounds[k], links) == Some(server)
            case None => forall i | 0 <= i < |outbounds| && IsProxy(outbounds[i]) :: Parsed(outbounds[i], links).None?
  {
    hide IsProxy, ParseOutbound, Dialled;
    k := 0;
    if outbounds != [] {
      var rest, proxies := outbounds[1..], ProxiesAmong(outbounds);
      assert forall i | 0 < i < |outbounds| :: outbounds[i] == rest[i - 1];
      if IsProxy(outbounds[0]) {
        assert proxies[0] == outbounds[0] && proxies[1..] == ProxiesAmong(rest);
      } else {
        assert proxies == ProxiesAmong(rest);
      }
      if !IsProxy(outbounds[0]) || Parsed(outbounds[0], links).None? {
        k := FirstParsed(rest, links);
        k := k + 1;
      }
    }
  }

  /**
   A profile is one location: parsed from its first proxy that can be, with its first proxy and the whole of it kept
   beside it; or none, if no proxy of it can be parsed.
   */
  lemma ProfileIsOneLocation(value: Json, links: Links) returns (lead: nat, k: nat)
    requires IsProfile(value)
    ensures var outbounds := value.GetArr("outbounds").value;
            && LeadsList(outbounds, lead)
            && if ParsesFirst(outbounds, links, k) then
                 Found(value, links) == [Parsed(outbounds[k], links).value.(rawOutbound := Some(outbounds[lead]),
                                                                           rawProfile := Some(value))]
               else
                 && Found(value, links) == []
                 && forall i | 0 <= i < |outbounds| && IsProxy(outbounds[i]) :: Parsed(outbounds[i], links).None?
  {
    hide IsProxy, ParseOutbound, Dialled;
    var outbounds := value.GetArr("outbounds").value;
    ProfileExactlyWhen(value);
    lead := FirstProxy(outbounds);
    k := FirstParsed(outbounds, links);
  }
}
