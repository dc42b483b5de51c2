/** Collapsing every pasted configuration into one card (src/lib/manual-configurations.ts). */
module ManualConfigurations {
  import opened Json
  import opened Text
  import opened Wrappers

  /** The JSON text of a card: none, one that does not parse, or one that parses to a value. */
  datatype Source = NoSource | Broken | Parsed(value: Json)

  datatype Item<T> = Item(id: string, name: string, url: string, source: Source, servers: seq<T>)

  /** White space of JavaScript strings. */
  predicate IsJsSpace(c: char) {
    (IsSpace(c) && c != '\U{0085}') || c == '\U{FEFF}'
  }

  function SkipSpace(s: string): string {
    if s != "" && IsJsSpace(s[0]) then SkipSpace(s[1..]) else s
  }

  predicate IsRemoteConfiguration(url: string) {
    StartsWith(Lower(SkipSpace(url)), "http://") || StartsWith(Lower(SkipSpace(url)), "https://")
  }

  predicate IsManual<T>(item: Item<T>) {
    !IsRemoteConfiguration(item.url)
  }

  function Manuals<T>(items: seq<Item<T>>): (r: seq<Item<T>>)
    ensures forall i | 0 <= i < |r| :: IsManual(r[i])
  {
    if items == [] then []
    else if IsManual(items[0]) then [items[0]] + Manuals(items[1..])
    else Manuals(items[1..])
  }

  function Remotes<T>(items: seq<Item<T>>): (r: seq<Item<T>>)
    ensures forall i | 0 <= i < |r| :: !IsManual(r[i])
  {
    if items == [] then []
    else if IsManual(items[0]) then Remotes(items[1..])
    else [items[0]] + Remotes(items[1..])
  }

  function Servers<T>(items: seq<Item<T>>): seq<T> {
    if items == [] then [] else items[0].servers + Servers(items[1..])
  }

  /** What the source of a card contributes: the elements of an array, or one value. */
  function Elements(value: Json): seq<Json> {
    if value.Arr? then value.items else [value]
  }

  /** Everything the sources hold, if every card has one that parses. */
  function Sources<T>(items: seq<Item<T>>): Option<seq<Json>> {
    if items == [] then Some([])
    else match (items[0].source, Sources(items[1..]))
      case (Parsed(value), Some(rest)) => Some(Elements(value) + rest)
      case _ => None
  }

  function CardName(servers: nat): string {
    if servers == 1 then "Configuration" else "Configurations"
  }

  /** The one card for all manual ones. */
  function Combined<T>(manual: seq<Item<T>>): (r: Item<T>)
    requires manual != []
    ensures r.url == manual[0].url
  {
    if |manual| == 1 then manual[0].(name := CardName(|manual[0].servers|))
    else manual[0].(
      name := CardName(|Servers(manual)|),
      servers := Servers(manual),
      source := match Sources(manual) case Some(all) => Parsed(Arr(all)) case None => NoSource)
  }

  /** `card` at the place of the first manual item, no other manual items, the remote ones untouched. */
  function Place<T>(items: seq<Item<T>>, card: Item<T>): seq<Item<T>> {
    if items == [] then []
    else if IsManual(items[0]) then [card] + Remotes(items[1..])
    else [items[0]] + Place(items[1..], card)
  }

  function Merge<T>(items: seq<Item<T>>): seq<Item<T>> {
    if Manuals(items) == [] then items else Place(items, Combined(Manuals(items)))
  }

  lemma Associates<A>(a: seq<A>, b: seq<A>, c: seq<A>)
    ensures a + (b + c) == (a + b) + c && [] + c == c
  {}

  lemma {:induction false} ServersAppend<T>(a: seq<Item<T>>, b: seq<Item<T>>)
    ensures Servers(a + b) == Servers(a) + Servers(b)
  {
    if a == [] {
      assert a + b == b;
      Associates([], [], Servers(b));
    } else {
      ServersAppend(a[1..], b);
      assert (a + b)[1..] == a[1..] + b;
      Associates(a[0].servers, Servers(a[1..]), Servers(b));
    }
  }

  lemma {:induction false} SourcesAppend<T>(a: seq<Item<T>>, b: seq<Item<T>>)
    ensures Sources(a + b) == match (Sources(a), Sources(b)) case (Some(x), Some(y)) => Some(x + y) case _ => None
  {
    hide Elements;
    if a == [] {
      assert a + b == b;
      if Sources(b).Some? {
        Associates([], [], Sources(b).value);
      }
    } else {
      SourcesAppend(a[1..], b);
      assert (a + b)[1..] == a[1..] + b;
      if a[0].source.Parsed? && Sources(a[1..]).Some? && Sources(b).Some? {
        Associates(Elements(a[0].source.value), Sources(a[1..]).value, Sources(b).value);
      }
    }
  }

  lemma {:induction false} ManualsAppend<T>(a: seq<Item<T>>, b: seq<Item<T>>)
    ensures Manuals(a + b) == Manuals(a) + Manuals(b)
  {
    hide IsManual;
    if a == [] {
      assert a + b == b;
      Associates([], [], Manuals(b));
    } else {
      ManualsAppend(a[1..], b);
      assert (a + b)[1..] == a[1..] + b;
      Associates([a[0]], Manuals(a[1..]), Manuals(b));
    }
  }

  lemma {:induction false} RemotesAppend<T>(a: seq<Item<T>>, b: seq<Item<T>>)
    ensures Remotes(a + b) == Remotes(a) + Remotes(b)
  {
    hide IsManual;
    if a == [] {
      assert a + b == b;
      Associates([], [], Remotes(b));
    } else {
      RemotesAppend(a[1..], b);
      assert (a + b)[1..] == a[1..] + b;
      Associates([a[0]], Remotes(a[1..]), Remotes(b));
    }
  }

  lemma FiltersAppend<T>(a: seq<Item<T>>, b: seq<Item<T>>)
    ensures Manuals(a + b) == Manuals(a) + Manuals(b)
    ensures Remotes(a + b) == Remotes(a) + Remotes(b)
  {
    hide Manuals, Remotes;
    ManualsAppend(a, b);
    RemotesAppend(a, b);
  }

  lemma {:induction false} FiltersIdle<T>(items: seq<Item<T>>)
    ensures Manuals(Remotes(items)) == [] && Remotes(Remotes(items)) == Remotes(items)
    ensures Manuals(items) == [] ==> Remotes(items) == items
  {
    hide IsManual;
    if items != [] {
      FiltersIdle(items[1..]);
      if !IsManual(items[0]) {
        assert Remotes(items) == [items[0]] + Remotes(items[1..]);
        assert Remotes(items)[0] == items[0] && Remotes(items)[1..] == Remotes(items[1..]);
      }
    }
  }

  /** What placing a card does: the manual items become the card, the remote ones stay. */
  lemma {:induction false} PlaceKeepsRemotes<T>(items: seq<Item<T>>, card: Item<T>)
    requires IsManual(card) && Manuals(items) != []
    ensures Remotes(Place(items, card)) == Remotes(items)
    ensures Manuals(Place(items, card)) == [card]
  {
    hide IsManual;
    FiltersIdle(items[1..]);
    if IsManual(items[0]) {
      assert Place(items, card)[1..] == Remotes(items[1..]);
    } else {
      PlaceKeepsRemotes(items[1..], card);
      assert Place(items, card)[1..] == Place(items[1..], card);
    }
  }

  /** The position of the first manual item. */
  function FirstManual<T>(items: seq<Item<T>>): (k: nat)
    requires Manuals(items) != []
    ensures k < |items| && IsManual(items[k]) && forall i | 0 <= i < k :: !IsManual(items[i])
  {
    if IsManual(items[0]) then 0 else 1 + FirstManual(items[1..])
  }

  /** The card comes to stand where the first manual item stood. */
  lemma {:induction false} CardTakesFirstPlace<T>(items: seq<Item<T>>, card: Item<T>)
    requires IsManual(card) && Manuals(items) != []
    ensures var k := FirstManual(items);
            k < |Place(items, card)| && Place(items, card)[k] == card && Place(items, card)[..k] == items[..k]
  {
    hide IsManual;
    if !IsManual(items[0]) {
      CardTakesFirstPlace(items[1..], card);
      assert Place(items, card)[1..] == Place(items[1..], card);
      var k := FirstManual(items);
      assert Place(items, card)[..k] == [items[0]] + Place(items[1..], card)[..k - 1];
      assert items[..k] == [items[0]] + items[1..][..k - 1];
    }
  }

  /**
   Merging keeps the remote items, in order and untouched, and every server of the manual ones, in order, on at most
   one card.
   */
  lemma MergeIsConservative<T>(items: seq<Item<T>>)
    ensures Remotes(Merge(items)) == Remotes(items)
    ensures Servers(Manuals(Merge(items))) == Servers(Manuals(items))
    ensures |Manuals(Merge(items))| == if Manuals(items) == [] then 0 else 1
  {
    hide IsManual;
    if Manuals(items) != [] {
      var card := Combined(Manuals(items));
      assert IsManual(card) by { CombinedIsManual(Manuals(items)); }
      PlaceKeepsRemotes(items, card);
      assert Servers([card]) == card.servers by { assert [card][1..] == []; }
      if |Manuals(items)| == 1 {
        assert Manuals(items)[1..] == [];
      }
    }
  }

  lemma CombinedIsManual<T>(manual: seq<Item<T>>)
    requires manual != [] && IsManual(manual[0])
    ensures IsManual(Combined(manual))
  {}

  /** There is one card, named for one server or for several, in the place and under the address of the first. */
  lemma CardIsNamed<T>(items: seq<Item<T>>)
    requires Manuals(items) != []
    ensures |Manuals(Merge(items))| == 1
    ensures var card := Manuals(Merge(items))[0];
            && card.url == Manuals(items)[0].url
            && card.name == if |card.servers| == 1 then "Configuration" else "Configurations"
  {
    hide IsManual;
    assert IsManual(Manuals(items)[0]);
    CombinedIsManual(Manuals(items));
    PlaceKeepsRemotes(items, Combined(Manuals(items)));
  }

  /** The source of a card for several items is complete or absent, never partial. */
  lemma CardIsComplete<T>(items: seq<Item<T>>)
    requires |Manuals(items)| > 1
    ensures |Manuals(Merge(items))| == 1
    ensures var source := Manuals(Merge(items))[0].source;
            if forall i | 0 <= i < |Manuals(items)| :: Manuals(items)[i].source.Parsed?
            then source.Parsed? && Sources(Manuals(items)) == Some(Elements(source.value)) else source == NoSource
  {
    hide IsManual;
    CombinedIsManual(Manuals(items));
    PlaceKeepsRemotes(items, Combined(Manuals(items)));
    SourcesWhenAll(Manuals(items));
  }

  lemma {:induction false} SourcesWhenAll<T>(items: seq<Item<T>>)
    ensures Sources(items).Some? <==> forall i | 0 <= i < |items| :: items[i].source.Parsed?
  {
    if items != [] {
      SourcesWhenAll(items[1..]);
      assert forall i | 0 < i < |items| :: items[i] == items[1..][i - 1];
    }
  }

  /** A card stands for the items it was made of. */
  lemma CombinedAbsorbs<T>(a: seq<Item<T>>, b: seq<Item<T>>)
    requires a != []
    ensures Combined([Combined(a)] + b) == Combined(a + b)
  {
    var card := Combined(a);
    var all, short := a + b, [card] + b;
    ServersAppend(a, b);
    ServersAppend([card], b);
    SourcesAppend(a, b);
    SourcesAppend([card], b);
    assert [card][1..] == [];
    if |a| == 1 {
      assert a[1..] == [];
      assert all == a + b && a == [a[0]];
    }
    if b == [] {
      assert all == a && short == [card];
      assert Servers(a) == card.servers;
    }
  }

  lemma {:induction false} PlaceAgain<T>(a: seq<Item<T>>, b: seq<Item<T>>, card: Item<T>, other: Item<T>)
    requires Manuals(a) != [] && IsManual(card)
    ensures Place(Place(a, card) + b, other) == Place(a + b, other)
  {
    hide IsManual;
    FiltersIdle(a[1..]);
    assert (a + b)[1..] == a[1..] + b;
    if IsManual(a[0]) {
      assert (Place(a, card) + b)[1..] == Remotes(a[1..]) + b;
      FiltersAppend(a[1..], b);
      FiltersAppend(Remotes(a[1..]), b);
    } else {
      PlaceAgain(a[1..], b, card, other);
      assert (Place(a, card) + b)[1..] == Place(a[1..], card) + b;
    }
  }

  /** Merging early changes nothing: what is merged may be merged again with anything. */
  lemma MergeIsConfluent<T>(a: seq<Item<T>>, b: seq<Item<T>>)
    ensures Merge(Merge(a) + b) == Merge(a + b)
  {
    hide IsManual, Combined, Place;
    if Manuals(a) != [] {
      var card := Combined(Manuals(a));
      assert IsManual(card) by { CombinedIsManual(Manuals(a)); }
      PlaceKeepsRemotes(a, card);
      FiltersAppend(Merge(a), b);
      FiltersAppend(a, b);
      CombinedAbsorbs(Manuals(a), Manuals(b));
      PlaceAgain(a, b, card, Combined(Manuals(a + b)));
    }
  }

  lemma MergeIsIdempotent<T>(items: seq<Item<T>>)
    ensures Merge(Merge(items)) == Merge(items)
  {
    hide Merge;
    MergeIsConfluent(items, []);
    assert items + [] == items && Merge(items) + [] == Merge(items);
  }

  /** What the list of subscriptions does with one more: a pasted one is merged in at once. */
  function Import<T>(list: seq<Item<T>>, item: Item<T>): seq<Item<T>> {
    if IsManual(item) then Merge(list + [item]) else list + [item]
  }

  function ImportAll<T>(items: seq<Item<T>>): seq<Item<T>> {
    if items == [] then [] else Import(ImportAll(items[..|items| - 1]), items[|items| - 1])
  }

  lemma RemoteAtTheEnd<T>(list: seq<Item<T>>, item: Item<T>)
    requires !IsManual(item)
    ensures Merge(list + [item]) == Merge(list) + [item]
  {
    hide IsManual, Combined;
    FiltersAppend(list, [item]);
    assert [item][1..] == [];
    assert Manuals(list + [item]) == Manuals(list);
    if Manuals(list) != [] {
      RemotePlaced(list, item, Combined(Manuals(list)));
    }
  }

  lemma {:induction false} RemotePlaced<T>(list: seq<Item<T>>, item: Item<T>, card: Item<T>)
    requires !IsManual(item) && Manuals(list) != []
    ensures Place(list + [item], card) == Place(list, card) + [item]
  {
    hide IsManual;
    assert (list + [item])[1..] == list[1..] + [item];
    if IsManual(list[0]) {
      FiltersAppend(list[1..], [item]);
      assert [item][1..] == [];
    } else {
      RemotePlaced(list[1..], item, card);
    }
  }

  /** Importing one after the other comes to the same as merging everything at once. */
  lemma {:induction false} ImportsMerge<T>(items: seq<Item<T>>)
    ensures ImportAll(items) == Merge(items)
  {
    hide IsManual, Merge;
    if items == [] {
      assert Merge(items) == items by { NothingToMerge<T>(); }
    } else {
      var earlier, last := items[..|items| - 1], items[|items| - 1];
      ImportsMerge(earlier);
      assert earlier + [last] == items;
      if IsManual(last) {
        MergeIsConfluent(earlier, [last]);
      } else {
        RemoteAtTheEnd(earlier, last);
      }
    }
  }

  lemma NothingToMerge<T>()
    ensures Merge<T>([]) == []
  {}

  /** The source's own way: the manual cards make one, and a pass over all items puts it in its place. */
  method MergeManualConfigurations<T>(items: seq<Item<T>>) returns (merged: seq<Item<T>>)
    ensures merged == Merge(items)
  {
    hide IsManual, Servers, Sources, Place;
    var manual := Manuals(items);
    if manual == [] {
      return items;
    }
    var card := manual[0].(name := CardName(|manual[0].servers|));
    if |manual| > 1 {
      var source := CompleteSource(manual);
      card := manual[0].(name := CardName(|Servers(manual)|), servers := Servers(manual), source := source);
    }
    merged := PlaceCard(items, card);
  }

  /** The first manual item becomes the card, the others go. */
  method PlaceCard<T>(items: seq<Item<T>>, card: Item<T>) returns (merged: seq<Item<T>>)
    ensures merged == Place(items, card)
  {
    hide IsManual;
    var inserted := false;
    merged := [];
    Associates([], [], Place(items, card));
    assert items[0..] == items;
    for i := 0 to |items|
      invariant !inserted ==> merged + Place(items[i..], card) == Place(items, card)
      invariant inserted ==> merged + Remotes(items[i..]) == Place(items, card)
    {
      assert items[i..][1..] == items[i + 1..];
      if !IsManual(items[i]) {
        Associates(merged, [items[i]], if inserted then Remotes(items[i + 1..]) else Place(items[i + 1..], card));
        merged := merged + [items[i]];
      } else if !inserted {
        Associates(merged, [card], Remotes(items[i + 1..]));
        inserted := true;
        merged := merged + [card];
      }
    }
    assert items[|items|..] == [];
  }

  /** All sources together, or nothing as soon as one is missing or broken. */
  method CompleteSource<T>(manual: seq<Item<T>>) returns (source: Source)
    ensures source == match Sources(manual) case Some(all) => Parsed(Arr(all)) case None => NoSource
  {
    hide Elements;
    var parsed: seq<Json> := [];
    for i := 0 to |manual|
      invariant Sources(manual[..i]) == Some(parsed)
    {
      SourcesOne(manual[i]);
      SourcesAppend(manual[..i], [manual[i]]);
      SourcesAppend(manual[..i + 1], manual[i + 1..]);
      assert manual[..i + 1] == manual[..i] + [manual[i]] && manual == manual[..i + 1] + manual[i + 1..];
      if !manual[i].source.Parsed? {
        return NoSource;
      }
      parsed := parsed + Elements(manual[i].source.value);
    }
    assert manual[..|manual|] == manual;
    source := Parsed(Arr(parsed));
  }

  lemma SourcesOne<T>(item: Item<T>)
    ensures Sources([item]) == match item.source case Parsed(value) => Some(Elements(value)) case _ => None
  {
    assert [item][1..] == [];
    if item.source.Parsed? {
      assert Elements(item.source.value) + [] == Elements(item.source.value);
    }
  }
}
