/**
 Installing, verifying and removing the kill-switch routes, one `netsh` call or file step at a time
 (service/src/windows_routes.rs). A deletion may silently do nothing; an addition may fail.
 */
module Routes {
  import opened Address
  import opened World
  import opened Wrappers
  import opened Adapter

  const HALF_ORDER: seq<Half> := [LowerIpv4, UpperIpv4, LowerIpv6, UpperIpv6]
  const MAX_DNS_SERVERS := 128

  /** `load_route_state`; an intact file may still fail to be read. */
  function LoadRouteState(file: RouteFile, readable: bool): (servers: Option<seq<Address>>)
    ensures servers.Some? <==> readable && !file.UnreadableRouteFile?
    ensures servers.Some? ==> forall a :: a in servers.value <==> file.Servers? && a in file.servers
  {
    if !readable then None
    else match file
      case NoRouteFile => Some([])
      case Servers(list) => Some(list)
      case UnreadableRouteFile => None
  }

  /** `.unwrap_or_default()`. */
  function OrNone(servers: Option<seq<Address>>): seq<Address> {
    if servers.Some? then servers.value else []
  }

  /** No more than one element of `from` is missing, and none that was not deleted. */
  ghost predicate Gap<T>(now: set<T>, from: set<T>, deleted: set<T>) {
    from - now <= deleted && forall a, b | a in from - now && b in from - now :: a == b
  }

  /** The deletions that took effect. */
  datatype Deletions = Deletions(halves: set<Half>, hosts: set<Address>)

  /** Of the routes of `from`, at most one is missing, and none that was not deleted. */
  ghost predicate OneMissing(s: Snapshot, from: Snapshot, deleted: Deletions) {
    || (from.hosts <= s.hosts && Gap(s.halves, from.halves, deleted.halves))
    || (from.halves <= s.halves && Gap(s.hosts, from.hosts, deleted.hosts))
  }

  /** Of the routes of `from`, at most one is missing. */
  ghost predicate AtMostOneMissing(s: Snapshot, from: Snapshot) {
    LackOne(s.halves, s.hosts, from.halves, from.hosts)
  }

  ghost predicate LackOne(halves: set<Half>, hosts: set<Address>, fromHalves: set<Half>, fromHosts: set<Address>) {
    || (fromHosts <= hosts && forall a, b | a in fromHalves - halves && b in fromHalves - halves :: a == b)
    || (fromHalves <= halves && forall a, b | a in fromHosts - hosts && b in fromHosts - hosts :: a == b)
  }

  ghost predicate SameOutside(a: set<Address>, b: set<Address>, except: set<Address>) {
    forall address | address !in except :: address in a <==> address in b
  }

  lemma AllHalves(halves: set<Half>, expected: bool)
    requires forall j | 0 <= j < |HALF_ORDER| :: (HALF_ORDER[j] in halves) == expected
    ensures halves == if expected then HALVES else {}
  {
    assert HALF_ORDER[0] == LowerIpv4 && HALF_ORDER[1] == UpperIpv4 && HALF_ORDER[2] == LowerIpv6
           && HALF_ORDER[3] == UpperIpv6;
    forall half: Half | half in halves
      ensures half in HALVES
    {
      match half {
        case LowerIpv4 =>
        case UpperIpv4 =>
        case LowerIpv6 =>
        case UpperIpv6 =>
      }
    }
  }

  /** `delete_route`: its outcome is ignored. */
  method DeleteHalf(machine: Machine, half: Half) returns (deleted: bool)
    requires machine.Valid()
    modifies machine`now, machine`visited
    ensures machine.Valid()
    ensures machine.visited == old(machine.visited) + {machine.now}
    ensures machine.now == if deleted then old(machine.now).(halves := old(machine.now).halves - {half})
            else old(machine.now)
    ensures machine.reliable ==> deleted
  {
    deleted := machine.Attempt();
    if deleted {
      machine.Step(machine.now.(halves := machine.now.halves - {half}));
    }
  }

  method DeleteHost(machine: Machine, address: Address) returns (deleted: bool)
    requires machine.Valid()
    modifies machine`now, machine`visited
    ensures machine.Valid()
    ensures machine.visited == old(machine.visited) + {machine.now}
    ensures machine.now == if deleted then old(machine.now).(hosts := old(machine.now).hosts - {address})
            else old(machine.now)
    ensures machine.reliable ==> deleted
  {
    deleted := machine.Attempt();
    if deleted {
      machine.Step(machine.now.(hosts := machine.now.hosts - {address}));
    }
  }

  /** Install the four halves, deleting and adding each in turn. */
  method InstallHalves(machine: Machine) returns (ok: bool, ghost deleted: set<Half>)
    requires machine.Valid()
    modifies machine`now, machine`visited
    ensures machine.Valid() && old(machine.visited) <= machine.visited
    ensures machine.now == old(machine.now).(halves := machine.now.halves)
    ensures Gap(machine.now.halves, old(machine.now).halves, deleted)
    ensures forall s | s in machine.visited :: s in old(machine.visited) ||
              (s == old(machine.now).(halves := s.halves) && Gap(s.halves, old(machine.now).halves, deleted))
    ensures forall half | half in deleted :: exists s | s in machine.visited ::
              s == old(machine.now).(halves := s.halves) && half !in s.halves
    ensures ok ==> machine.now.halves == HALVES && old(machine.now).halves <= machine.now.halves
    ensures machine.reliable ==> ok && deleted == HALVES
  {
    deleted := {};
    ghost var from := machine.now;
    for i := 0 to |HALF_ORDER|
      invariant machine.Valid() && old(machine.visited) <= machine.visited
      invariant machine.now == from.(halves := machine.now.halves) && from.halves <= machine.now.halves
      invariant forall s | s in machine.visited :: s in old(machine.visited) ||
                  (s == from.(halves := s.halves) && Gap(s.halves, from.halves, deleted))
      invariant forall half | half in deleted :: exists s | s in machine.visited ::
                  s == from.(halves := s.halves) && half !in s.halves
      invariant forall j | 0 <= j < i :: HALF_ORDER[j] in machine.now.halves
      invariant machine.reliable ==> forall j | 0 <= j < i :: HALF_ORDER[j] in deleted
    {
      var gone := DeleteHalf(machine, HALF_ORDER[i]);
      if gone {
        deleted := deleted + {HALF_ORDER[i]};
      }
      var added := machine.Attempt();
      if !added {
        return false, deleted;
      }
      machine.Step(machine.now.(halves := machine.now.halves + {HALF_ORDER[i]}));
    }
    AllHalves(machine.now.halves, true);
    if machine.reliable {
      AllHalves(deleted, true);
    }
    ok := true;
  }

  /** Install one route for every server listed, deleting and adding each in turn; no other host route is touched. */
  method InstallHosts(machine: Machine, servers: seq<Address>, ghost listed: set<Address>)
    returns (ok: bool, ghost deleted: set<Address>)
    requires machine.Valid()
    requires forall address :: address in servers <==> address in listed
    modifies machine`now, machine`visited
    ensures machine.Valid() && old(machine.visited) <= machine.visited
    ensures machine.now == old(machine.now).(hosts := machine.now.hosts)
    ensures SameOutside(machine.now.hosts, old(machine.now.hosts), listed)
    ensures Gap(machine.now.hosts, old(machine.now).hosts, deleted)
    ensures forall s | s in machine.visited :: s in old(machine.visited) ||
              (&& s == old(machine.now).(hosts := s.hosts) && SameOutside(s.hosts, old(machine.now.hosts), listed)
               && Gap(s.hosts, old(machine.now).hosts, deleted))
    ensures deleted <= listed
    ensures forall address | address in deleted :: exists s | s in machine.visited ::
              s == old(machine.now).(hosts := s.hosts) && address !in s.hosts
    ensures ok ==> listed <= machine.now.hosts && old(machine.now).hosts <= machine.now.hosts
    ensures machine.reliable ==> ok && deleted == listed
  {
    deleted := {};
    ghost var from := machine.now;
    for i := 0 to |servers|
      invariant machine.Valid() && old(machine.visited) <= machine.visited
      invariant machine.now == from.(hosts := machine.now.hosts) && from.hosts <= machine.now.hosts
      invariant SameOutside(machine.now.hosts, from.hosts, listed)
      invariant forall s | s in machine.visited :: s in old(machine.visited) ||
                  (s == from.(hosts := s.hosts) && SameOutside(s.hosts, from.hosts, listed)
                   && Gap(s.hosts, from.hosts, deleted))
      invariant deleted <= listed
      invariant forall address | address in deleted :: exists s | s in machine.visited ::
                  s == from.(hosts := s.hosts) && address !in s.hosts
      invariant forall j | 0 <= j < i :: servers[j] in machine.now.hosts
      invariant machine.reliable ==> forall j | 0 <= j < i :: servers[j] in deleted
    {
      var gone := DeleteHost(machine, servers[i]);
      if gone {
        deleted := deleted + {servers[i]};
      }
      var added := machine.Attempt();
      if !added {
        return false, deleted;
      }
      machine.Step(machine.now.(hosts := machine.now.hosts + {servers[i]}));
    }
    ok := true;
  }

  /** `verify_killswitch_routes`: every route listed is present, or none is. */
  method VerifyRoutes(machine: Machine, expected: bool, readable: bool) returns (ok: bool)
    ensures ok ==> machine.now.halves == if expected then HALVES else {}
    ensures ok && LoadRouteState(machine.now.routeFile, readable).Some? ==>
              if expected then machine.now.Named() <= machine.now.hosts else machine.now.Named() !! machine.now.hosts
    ensures machine.reliable && machine.now.halves == (if expected then HALVES else {}) && !ok ==>
              exists address | address in OrNone(LoadRouteState(machine.now.routeFile, readable)) ::
                (address in machine.now.hosts) != expected
  {
    for i := 0 to |HALF_ORDER|
      invariant forall j | 0 <= j < i :: (HALF_ORDER[j] in machine.now.halves) == expected
    {
      var listed := machine.Attempt();
      if !listed || (HALF_ORDER[i] in machine.now.halves) != expected {
        return false;
      }
    }
    AllHalves(machine.now.halves, expected);
    var servers := OrNone(LoadRouteState(machine.now.routeFile, readable));
    for i := 0 to |servers|
      invariant forall j | 0 <= j < i :: (servers[j] in machine.now.hosts) == expected
    {
      var listed := machine.Attempt();
      if !listed || (servers[i] in machine.now.hosts) != expected {
        return false;
      }
    }
    ok := true;
  }

  /** What an installation or removal that started in `from` may pass through. */
  ghost predicate RouteStep(s: Snapshot, from: Snapshot) {
    && s.SameButRoutes(from)
    && (s.Recorded() <==> from.hosts <= s.Named())
  }

  /** The names of an installation: the local resolvers, and the names of the old file if it could be read. */
  predicate Wanted(file: RouteFile, adapters: seq<Adapter>, readable: bool, address: Address) {
    LocalResolver(adapters, address) || address in OrNone(LoadRouteState(file, readable))
  }

  /** There are more names than an installation accepts. */
  ghost predicate TooMany(file: RouteFile, adapters: seq<Adapter>, readable: bool) {
    exists servers: seq<Address> ::
      |servers| > MAX_DNS_SERVERS && Ordered(servers) && forall address :: address in servers <==>
        Wanted(file, adapters, readable, address)
  }

  /** So few names that an installation accepts them. */
  lemma FewEnough(servers: seq<Address>, file: RouteFile, adapters: seq<Adapter>, readable: bool)
    requires Ordered(servers) && |servers| <= MAX_DNS_SERVERS
    requires forall address :: address in servers <==> Wanted(file, adapters, readable, address)
    ensures !TooMany(file, adapters, readable)
  {
    forall others: seq<Address> | Ordered(others) && forall address :: address in others <==> address in servers
      ensures others == servers
    {
      OrderedSame(others, servers);
    }
  }

  lemma NothingMissing(s: Snapshot, from: Snapshot)
    requires from.halves <= s.halves && from.hosts <= s.hosts
    ensures AtMostOneMissing(s, from)
  {}

  lemma OneMissingIsAtMostOne(s: Snapshot, from: Snapshot, deleted: Deletions)
    requires OneMissing(s, from, deleted)
    ensures AtMostOneMissing(s, from)
  {}

  lemma OneMissingStill(s: Snapshot, from: Snapshot, deleted: Deletions, more: Deletions)
    requires OneMissing(s, from, deleted) && deleted.halves <= more.halves && deleted.hosts <= more.hosts
    ensures OneMissing(s, from, more)
  {}

  /** The four halves, then the host routes; what they cover is not touched otherwise. */
  method InstallTable(machine: Machine, servers: seq<Address>) returns (ok: bool, ghost deleted: Deletions)
    requires machine.Valid() && machine.now.routeFile == Servers(servers)
    modifies machine`now, machine`visited
    ensures machine.Valid() && old(machine.visited) <= machine.visited
    ensures machine.now == old(machine.now).(halves := machine.now.halves, hosts := machine.now.hosts)
    ensures OneMissing(machine.now, old(machine.now), deleted)
    ensures SameOutside(machine.now.hosts, old(machine.now).hosts, machine.now.Named())
    ensures forall s | s in machine.visited :: s in old(machine.visited) ||
              (s == old(machine.now).(halves := s.halves, hosts := s.hosts) && OneMissing(s, old(machine.now), deleted)
               && SameOutside(s.hosts, old(machine.now).hosts, s.Named()))
    ensures forall half | half in deleted.halves :: exists s | s in machine.visited ::
              s == old(machine.now).(halves := s.halves, hosts := s.hosts) && half !in s.halves
    ensures forall address | address in deleted.hosts :: exists s | s in machine.visited ::
              s == old(machine.now).(halves := s.halves, hosts := s.hosts) && address !in s.hosts
    ensures ok ==> machine.now.halves == HALVES && machine.now.Named() <= machine.now.hosts
    ensures machine.reliable ==> ok && deleted == Deletions(HALVES, machine.now.Named())
  {
    ghost var halves, hosts: set<Address>;
    ghost var from := machine.now;
    ok, halves := InstallHalves(machine);
    deleted := Deletions(halves, {});
    if !ok {
      return;
    }
    ghost var between, first := machine.visited, deleted;
    ghost var listed := machine.now.Named();
    ok, hosts := InstallHosts(machine, servers, listed);
    deleted := Deletions(halves, hosts);
    forall s | s in machine.visited && s !in old(machine.visited)
      ensures OneMissing(s, from, deleted)
    {
      if s in between {
        OneMissingStill(s, from, first, deleted);
      }
    }
  }

  /**
   The servers to guard: those of the old file, if it can be read, and the local resolvers; named before any is
   routed.
   */
  method NameServers(machine: Machine, adapters: Option<seq<Adapter>>, readable: bool)
    returns (servers: Option<seq<Address>>)
    requires machine.Valid()
    modifies machine`now, machine`visited
    ensures machine.Valid() && machine.visited == old(machine.visited) + {machine.now}
    ensures machine.now == if servers.Some? then old(machine.now).(routeFile := Servers(servers.value))
            else old(machine.now)
    ensures servers.Some? ==> adapters.Some? && Ordered(servers.value) && |servers.value| <= MAX_DNS_SERVERS
    ensures servers.Some? ==> forall address ::
              address in servers.value <==> Wanted(old(machine.now).routeFile, adapters.value, readable, address)
    ensures servers.Some? && LoadRouteState(old(machine.now).routeFile, readable).Some? ==>
              old(machine.now).Named() <= machine.now.Named()
    ensures servers.Some? ==> !TooMany(old(machine.now).routeFile, adapters.value, readable)
    ensures machine.reliable && adapters.Some? && servers.None? ==>
              TooMany(old(machine.now).routeFile, adapters.value, readable)
  {
    if adapters.None? {
      return None;
    }
    var found := PhysicalDnsServers(adapters.value);
    var names := SortDedup(OrNone(LoadRouteState(machine.now.routeFile, readable)) + found);
    assert forall address :: address in names <==> Wanted(machine.now.routeFile, adapters.value, readable, address);
    if |names| > MAX_DNS_SERVERS {
      return None;
    }
    FewEnough(names, machine.now.routeFile, adapters.value, readable);
    var written := machine.Attempt();
    if !written {
      return None;
    }
    machine.Step(machine.now.(routeFile := Servers(names)));
    servers := Some(names);
  }

  /**
   Name the servers to guard, then install the routes. A name is lost only if the old file could not be
   read. Every state lacks at most one of the routes there were.
   */
  method InstallRoutes(machine: Machine, adapters: Option<seq<Adapter>>, readable: bool)
    returns (ok: bool, ghost deleted: Deletions)
    requires machine.Valid()
    modifies machine`now, machine`visited
    ensures machine.Valid() && old(machine.visited) <= machine.visited
    ensures RouteStep(machine.now, old(machine.now)) && OneMissing(machine.now, old(machine.now), deleted)
    ensures forall s | s in machine.visited :: s in old(machine.visited) ||
              (RouteStep(s, old(machine.now)) && OneMissing(s, old(machine.now), deleted))
    ensures LoadRouteState(old(machine.now).routeFile, readable).Some? ==>
              forall s | s in machine.visited :: s in old(machine.visited) || old(machine.now).Named() <= s.Named()
    ensures forall half | half in deleted.halves :: exists s | s in machine.visited ::
              s.SameButRoutes(old(machine.now)) && half !in s.halves
    ensures forall address | address in deleted.hosts :: exists s | s in machine.visited ::
              s.SameButRoutes(old(machine.now)) && address !in s.hosts
    ensures ok ==>
      && machine.now.Held()
      && adapters.Some?
      && (forall address :: address in machine.now.Named() <==>
          Wanted(old(machine.now).routeFile, adapters.value, readable, address))
    ensures ok ==> !TooMany(old(machine.now).routeFile, adapters.value, readable)
    ensures machine.reliable && adapters.Some? ==>
              ok || TooMany(old(machine.now).routeFile, adapters.value, readable)
    ensures machine.reliable && ok ==> deleted == Deletions(HALVES, machine.now.Named())
  {
    hide Wanted, TooMany, LoadRouteState, Ordered;
    ok, deleted := false, Deletions({}, {});
    var servers := NameServers(machine, adapters, readable);
    if servers.None? {
      return;
    }
    ok, deleted := InstallTable(machine, servers.value);
    if ok {
      var checks := machine.Attempt();
      ok := VerifyRoutes(machine, true, checks);
    }
  }

  /** No route there was is missing. */
  predicate NoneMissing(s: Snapshot, from: Snapshot) {
    from.halves <= s.halves && from.hosts <= s.hosts
  }

  /**
   When an installation over existing routes is seamless: exactly when none of the deletions that took
   effect was of a route that was there. Where deletions do take effect, that is when it installs no route
   a second time.
   */
  method SeamlessExactlyWhen(machine: Machine, adapters: Option<seq<Adapter>>, readable: bool)
    returns (ok: bool, ghost deleted: Deletions)
    requires machine.Valid() && machine.visited == {machine.now}
    modifies machine`now, machine`visited
    ensures (forall s | s in machine.visited :: NoneMissing(s, old(machine.now)))
            <==> deleted.halves !! old(machine.now).halves && deleted.hosts !! old(machine.now).hosts
    ensures machine.reliable && ok ==>
      ((forall s | s in machine.visited :: NoneMissing(s, old(machine.now)))
       <==> old(machine.now).halves == {} && machine.now.Named() !! old(machine.now).hosts)
  {
    ok, deleted := InstallRoutes(machine, adapters, readable);
    if half :| half in deleted.halves && half in old(machine.now).halves {
      ghost var s :| s in machine.visited && s.SameButRoutes(old(machine.now)) && half !in s.halves;
      assert !NoneMissing(s, old(machine.now));
    }
    if address :| address in deleted.hosts && address in old(machine.now).hosts {
      ghost var s :| s in machine.visited && s.SameButRoutes(old(machine.now)) && address !in s.hosts;
      assert !NoneMissing(s, old(machine.now));
    }
  }

  /** A complete hold, without resolvers to guard, is incomplete while it is installed again, although nothing fails. */
  method HoldIsOpenedByReinstalling(machine: Machine) returns (ok: bool, ghost gap: Snapshot)
    requires machine.Valid() && machine.visited == {machine.now} && machine.reliable
    requires machine.now.halves == HALVES && machine.now.routeFile == Servers([])
    modifies machine`now, machine`visited
    ensures old(machine.now).Held() && ok && machine.now.Held()
    ensures gap in machine.visited && LowerIpv4 !in gap.halves && !gap.Held()
  {
    ghost var deleted;
    NothingWanted();
    ok, deleted := InstallRoutes(machine, Some([]), true);
    assert LowerIpv4 in deleted.halves;
    gap :| gap in machine.visited && gap.SameButRoutes(old(machine.now)) && LowerIpv4 !in gap.halves;
  }

  lemma NothingWanted()
    ensures !TooMany(Servers([]), [], true)
  {
    forall servers: seq<Address> | forall address :: address in servers <==> Wanted(Servers([]), [], true, address)
      ensures |servers| <= MAX_DNS_SERVERS
    {
      SomeIn(servers);
    }
  }

  /** Delete every half and every listed host route, each deletion at its own risk. */
  method DeleteRoutes(machine: Machine, servers: seq<Address>)
    requires machine.Valid()
    modifies machine`now, machine`visited
    ensures machine.Valid() && old(machine.visited) <= machine.visited
    ensures machine.now == old(machine.now).(halves := machine.now.halves, hosts := machine.now.hosts)
    ensures machine.now.halves <= old(machine.now).halves && machine.now.hosts <= old(machine.now).hosts
    ensures forall address | address in old(machine.now).hosts && address !in servers :: address in machine.now.hosts
    ensures forall s | s in machine.visited :: s in old(machine.visited) ||
              (&& s == old(machine.now).(halves := s.halves, hosts := s.hosts)
               && machine.now.halves <= s.halves <= old(machine.now).halves
               && machine.now.hosts <= s.hosts <= old(machine.now).hosts)
    ensures machine.reliable ==> machine.now.halves == {} && forall address | address in servers ::
              address !in machine.now.hosts
  {
    ghost var from := machine.now;
    for i := 0 to |HALF_ORDER|
      invariant machine.Valid() && old(machine.visited) <= machine.visited
      invariant machine.now == from.(halves := machine.now.halves) && machine.now.halves <= from.halves
      invariant forall s | s in machine.visited :: s in old(machine.visited) ||
                  (s == from.(halves := s.halves) && machine.now.halves <= s.halves <= from.halves)
      invariant machine.reliable ==> forall j | 0 <= j < i :: HALF_ORDER[j] !in machine.now.halves
    {
      var gone := DeleteHalf(machine, HALF_ORDER[i]);
    }
    if machine.reliable {
      AllHalves(machine.now.halves, false);
    }
    ghost var halves := machine.now.halves;
    for i := 0 to |servers|
      invariant machine.Valid() && old(machine.visited) <= machine.visited
      invariant machine.now == from.(halves := halves, hosts := machine.now.hosts)
      invariant machine.now.hosts <= from.hosts
      invariant forall address | address in from.hosts && address !in servers :: address in machine.now.hosts
      invariant forall s | s in machine.visited :: s in old(machine.visited) ||
                  (&& s == from.(halves := s.halves, hosts := s.hosts)
                   && halves <= s.halves <= from.halves && machine.now.hosts <= s.hosts <= from.hosts)
      invariant machine.reliable ==> forall j | 0 <= j < i :: servers[j] !in machine.now.hosts
    {
      var gone := DeleteHost(machine, servers[i]);
    }
  }

  /**
   Remove the kill-switch routes, verify that they are gone, and only then forget their names; the file is
   read once for either. When it was read both times, the names are forgotten only once none of them is a
   route.
   */
  method RemoveRoutes(machine: Machine, readable: bool, readableAgain: bool) returns (ok: bool)
    requires machine.Valid()
    modifies machine`now, machine`visited
    ensures machine.Valid() && old(machine.visited) <= machine.visited
    ensures machine.now.SameButRoutes(old(machine.now))
    ensures machine.now.hosts <= old(machine.now).hosts
    ensures forall s | s in machine.visited :: s in old(machine.visited) ||
              (&& s.SameButRoutes(old(machine.now))
               && s.hosts <= old(machine.now).hosts
               && (s.routeFile == old(machine.now).routeFile || (s.routeFile.NoRouteFile? && s.halves == {}))
               && (readable && readableAgain && s.routeFile != old(machine.now).routeFile ==>
                   s.hosts !! old(machine.now).Named()))
    ensures ok ==> machine.now.halves == {} && machine.now.routeFile.NoRouteFile?
    ensures ok && readable && readableAgain ==> machine.now.hosts == old(machine.now).hosts - old(machine.now).Named()
    ensures ok && readable && readableAgain && old(machine.now).Recorded() ==> machine.now.hosts == {}
    ensures machine.reliable && (readable || !readableAgain) ==> ok
    ensures machine.reliable && old(machine.now).Recorded() ==>
              (machine.now.Recorded() <==> readable || readableAgain || old(machine.now).hosts == {})
  {
    var servers := OrNone(LoadRouteState(machine.now.routeFile, readable));
    DeleteRoutes(machine, servers);
    ok := VerifyRoutes(machine, false, readableAgain);
    if ok && !machine.now.routeFile.NoRouteFile? {
      ok := machine.Attempt();
      if ok {
        machine.Step(machine.now.(routeFile := NoRouteFile));
      }
    }
  }

  /**
   A route file that cannot be read for a moment, while nothing else fails, leaves a host route that no file names.
   */
  method HostRouteIsOrphaned(machine: Machine, address: Address) returns (ok: bool)
    requires machine.Valid() && machine.reliable
    requires machine.now.hosts == {address} && machine.now.routeFile == Servers([address])
    modifies machine`now, machine`visited
    ensures old(machine.now).Recorded() && ok
    ensures address in machine.now.hosts && machine.now.routeFile.NoRouteFile? && !machine.now.Recorded()
  {
    ok := RemoveRoutes(machine, false, false);
  }

  const ROUTE_FILE_LIMIT := 64 * 1024
  const LONGEST_ADDRESS := 45

  function Quoted(texts: seq<string>): string {
    if texts == [] then ""
    else "\"" + texts[0] + "\"" + (if |texts| == 1 then "" else ",") + Quoted(texts[1..])
  }

  /** killswitch-routes.json, for the addresses with these texts. */
  function Rendered(texts: seq<string>): string {
    "{\"dns_servers\":[" + Quoted(texts) + "]}"
  }

  lemma {:induction false} QuotedLength(texts: seq<string>)
    requires forall i | 0 <= i < |texts| :: |texts[i]| <= LONGEST_ADDRESS
    ensures |Quoted(texts)| <= |texts| * (LONGEST_ADDRESS + 3)
  {
    if texts != [] {
      QuotedLength(texts[1..]);
    }
  }

  /**
   What an installation writes can be loaded again: the limit on servers keeps the file under the limit on its
   length.
   */
  lemma RouteFileFits(texts: seq<string>)
    requires |texts| <= MAX_DNS_SERVERS && forall i | 0 <= i < |texts| :: |texts[i]| <= LONGEST_ADDRESS
    ensures |Rendered(texts)| <= ROUTE_FILE_LIMIT
  {
    QuotedLength(texts);
  }

  /** An operation, with the outcomes of the times it reads the file. */
  datatype Operation
    = Install(adapters: Option<seq<Adapter>>, readable: bool) | Remove(readable: bool, readableAgain: bool)

  /** Installs and removes, each completed or cut short by a crash in any state it passes through. */
  datatype RouteEvent = Finished(operation: Operation) | Cut(operation: Operation)

  predicate Reads(operation: Operation) {
    operation.readable && (operation.Remove? ==> operation.readableAgain)
  }

  /**
   The route file is a write-ahead log: whatever is installed, removed or cut short in whatever state, no
   host route ever exists that the file does not name, as long as every read of the file succeeds.
   */
  method RunOperations(machine: Machine, events: seq<RouteEvent>)
    requires machine.Valid() && forall s | s in machine.visited :: s.Recorded()
    requires forall event | event in events :: Reads(event.operation)
    modifies machine`now, machine`visited, machine`written
    ensures machine.Valid() && machine.now.Recorded()
    ensures forall s | s in machine.visited :: s.Recorded()
  {
    for i := 0 to |events|
      invariant machine.Valid()
      invariant forall s | s in machine.visited :: s.Recorded()
    {
      assert events[i] in events;
      var ok;
      ghost var deleted;
      match events[i].operation {
        case Install(adapters, readable) => ok, deleted := InstallRoutes(machine, adapters, readable);
        case Remove(readable, readableAgain) => ok := RemoveRoutes(machine, readable, readableAgain);
      }
      if events[i].Cut? {
        machine.Crash();
      }
    }
  }

  /**
   What one installation does to the log: it stays complete exactly when the file was read or every host route is
   wanted anyway.
   */
  method InstallKeepsTheLogExactlyWhen(machine: Machine, adapters: Option<seq<Adapter>>, readable: bool)
    returns (ok: bool)
    requires machine.Valid() && machine.now.Recorded()
    modifies machine`now, machine`visited
    ensures ok ==>
      && adapters.Some?
      && (machine.now.Recorded() <==>
         readable || forall address | address in old(machine.now).hosts :: LocalResolver(adapters.value, address))
  {
    ghost var deleted;
    ghost var from := machine.now;
    ok, deleted := InstallRoutes(machine, adapters, readable);
    if ok {
      assert RouteStep(machine.now, from);
    }
  }
}
