/**
 What the installed routes do to a packet: the longest prefix wins, then the lowest metric
 (service/src/windows_routes.rs, the routes it adds and their metrics).
 */
module Lookup {
  import opened Address
  import opened Prefixes
  import opened Wrappers
  import Adapter
  import Routes
  import World

  datatype Interface = Loopback | Tunnel | Physical(index: nat)

  datatype Route = Route(prefix: Prefix, link: Interface, metric: nat)

  const KILLSWITCH_METRIC := 4096
  const TUNNEL_METRIC := 1

  const LOWER_V4 := Prefix(false, 0, 1)
  const UPPER_V4 := Prefix(false, 0x8000_0000, 1)
  const LOWER_V6 := Prefix(true, 0, 1)
  const UPPER_V6 := Prefix(true, 0x8000 * AFTER_LEAD, 1)

  function HalfPrefix(half: World.Half): Prefix {
    match half
    case LowerIpv4 => LOWER_V4
    case UpperIpv4 => UPPER_V4
    case LowerIpv6 => LOWER_V6
    case UpperIpv6 => UPPER_V6
  }

  /** The routes on the loopback interface that a snapshot of the machine stands for. */
  function KillSwitchRoutes(s: World.Snapshot): set<Route> {
    (set half | half in s.halves :: Route(HalfPrefix(half), Loopback, KILLSWITCH_METRIC))
    + (set host | host in s.hosts :: Route(HostPrefix(host), Loopback, 1))
  }

  /** The split-default routes of a healthy tunnel. */
  const TUNNEL_ROUTES: set<Route> := {
    Route(LOWER_V4, Tunnel, TUNNEL_METRIC), Route(UPPER_V4, Tunnel, TUNNEL_METRIC),
    Route(LOWER_V6, Tunnel, TUNNEL_METRIC), Route(UPPER_V6, Tunnel, TUNNEL_METRIC)}

  /** `a` is at least as good a match as `b`. */
  predicate Beats(a: Route, b: Route) {
    a.prefix.length > b.prefix.length || (a.prefix.length == b.prefix.length && a.metric <= b.metric)
  }

  ghost predicate Best(table: set<Route>, address: Address, route: Route) {
    && route in table && Covers(route.prefix, address)
    && forall other | other in table && Covers(other.prefix, address) :: Beats(route, other)
  }

  /** Every best match for the address, ties included, leads to this interface, and there is one. */
  ghost predicate GoesTo(table: set<Route>, address: Address, link: Interface) {
    && (exists route :: Best(table, address, route))
    && (forall route | Best(table, address, route) :: route.link == link)
  }

  /** Exactly one half covers an address. */
  lemma HalfOf(address: Address) returns (half: World.Half)
    ensures half in World.HALVES && Covers(HalfPrefix(half), address) && HalfPrefix(half).length == 1
    ensures forall other: World.Half :: Covers(HalfPrefix(other), address) ==> other == half
  {
    hide Pow2;
    SmallPowers();
    LargePowers();
    match address {
      case V4(n) => half := if n < 0x8000_0000 then World.LowerIpv4 else World.UpperIpv4;
      case V6(n) => half := if n < 0x8000 * AFTER_LEAD then World.LowerIpv6 else World.UpperIpv6;
    }
  }

  /** A route that covers an address leaves a best match for it. */
  lemma {:induction false} BestExists(table: set<Route>, address: Address, seed: Route) returns (best: Route)
    requires seed in table && Covers(seed.prefix, address)
    ensures Best(table, address, best) && Beats(best, seed)
    decreases table
  {
    if other :| other in table && Covers(other.prefix, address) && !Beats(seed, other) {
      var rest := table - {seed};
      best := BestExists(rest, address, other);
      assert forall r | r in table :: r == seed || r in rest;
    } else {
      best := seed;
    }
  }

  /** The kill-switch routes that cover an address: its half, and its own host route if it has one. */
  lemma KillSwitchMatch(s: World.Snapshot, address: Address) returns (half: Route)
    requires s.halves == World.HALVES
    ensures half in KillSwitchRoutes(s) && Covers(half.prefix, address)
    ensures half.link == Loopback && half.prefix.length == 1 && half.metric == KILLSWITCH_METRIC
    ensures forall route | route in KillSwitchRoutes(s) && Covers(route.prefix, address) ::
              route == half || (address in s.hosts && route == Route(HostPrefix(address), Loopback, 1))
  {
    hide Covers, Pow2;
    var which := HalfOf(address);
    half := Route(HalfPrefix(which), Loopback, KILLSWITCH_METRIC);
    forall host {
      HostPrefixCovers(host, address);
    }
  }

  /**
   With the kill-switch routes installed, an address that is not a protected resolver is blocked exactly
   when no other interface claims it by more than half the address space, or by half at a better metric.
   */
  lemma BlockedExactlyWhen(s: World.Snapshot, others: set<Route>, address: Address)
    requires s.halves == World.HALVES && address !in s.hosts
    requires forall route | route in others :: route.link != Loopback
    ensures GoesTo(KillSwitchRoutes(s) + others, address, Loopback) <==>
            forall route | route in others && Covers(route.prefix, address) ::
              route.prefix.length < 1 || (route.prefix.length == 1 && route.metric > KILLSWITCH_METRIC)
  {
    hide Covers, KillSwitchRoutes;
    var half := KillSwitchMatch(s, address);
    var table := KillSwitchRoutes(s) + others;
    if rival :| rival in others && Covers(rival.prefix, address) && Beats(rival, half) {
      var best := BestExists(others, address, rival);
      assert Best(table, address, best);
    } else {
      assert Best(table, address, half);
    }
  }

  /** A protected resolver is blocked exactly when no other interface has a host route of its own for it. */
  lemma ResolverBlockedExactlyWhen(s: World.Snapshot, others: set<Route>, address: Address)
    requires s.halves == World.HALVES && address in s.hosts
    requires forall route | route in others :: route.link != Loopback
    ensures GoesTo(KillSwitchRoutes(s) + others, address, Loopback) <==>
            forall route | route in others && Covers(route.prefix, address) ::
              route.prefix.length < Width(address.V6?) || route.metric > 1
  {
    hide KillSwitchRoutes, Pow2;
    HostPrefixCovers(address, address);
    var half := KillSwitchMatch(s, address);
    var own := Route(HostPrefix(address), Loopback, 1);
    assert own in KillSwitchRoutes(s) by { HostRoute(s, address); }
    var table := KillSwitchRoutes(s) + others;
    if rival :| rival in others && Covers(rival.prefix, address) && Beats(rival, own) {
      var best := BestExists(others, address, rival);
      assert Best(table, address, best);
    } else {
      assert Best(table, address, own);
    }
  }

  lemma HostRoute(s: World.Snapshot, address: Address)
    requires address in s.hosts
    ensures Route(HostPrefix(address), Loopback, 1) in KillSwitchRoutes(s)
  {}

  /**
   While the tunnel is healthy its routes win over the kill switch: an address goes into it exactly when
   it is no protected resolver and no physical interface claims it by more than half the address space,
   or by half at the tunnel's metric or better.
   */
  lemma TunnelledExactlyWhen(s: World.Snapshot, physical: set<Route>, address: Address)
    requires s.halves == World.HALVES
    requires forall route | route in physical :: route.link.Physical?
    ensures GoesTo(KillSwitchRoutes(s) + (TUNNEL_ROUTES + physical), address, Tunnel) <==>
            && address !in s.hosts
            && forall route | route in physical && Covers(route.prefix, address) ::
                 route.prefix.length < 1 || (route.prefix.length == 1 && route.metric > TUNNEL_METRIC)
  {
    hide Covers, KillSwitchRoutes, Pow2;
    var half := KillSwitchMatch(s, address);
    var which := HalfOf(address);
    var tunnel := Route(HalfPrefix(which), Tunnel, TUNNEL_METRIC);
    assert forall route | route in TUNNEL_ROUTES && Covers(route.prefix, address) :: route == tunnel by {
      assert LOWER_V4 == HalfPrefix(World.LowerIpv4) && UPPER_V4 == HalfPrefix(World.UpperIpv4);
      assert LOWER_V6 == HalfPrefix(World.LowerIpv6) && UPPER_V6 == HalfPrefix(World.UpperIpv6);
    }
    assert tunnel in TUNNEL_ROUTES;
    var table := KillSwitchRoutes(s) + (TUNNEL_ROUTES + physical);
    var own := Route(HostPrefix(address), Loopback, 1);
    if address in s.hosts {
      HostRoute(s, address);
      HostPrefixCovers(address, address);
      var best := BestExists(table, address, own);
      assert best != tunnel;
    } else if rival :| rival in physical && Covers(rival.prefix, address) && Beats(rival, tunnel) {
      var best := BestExists(physical, address, rival);
      assert Best(table, address, best);
    } else {
      assert Best(table, address, tunnel);
    }
  }

  /** None of these routes claims the address from the loopback route for it. */
  ghost predicate Unclaimed(s: World.Snapshot, others: set<Route>, address: Address) {
    forall route | route in others && Covers(route.prefix, address) ::
      if address in s.hosts then route.prefix.length < Width(address.V6?) || route.metric > 1
      else route.prefix.length < 1 || (route.prefix.length == 1 && route.metric > KILLSWITCH_METRIC)
  }

  /** In any state with the hold in place, the loopback interface gets exactly what no other route claims. */
  lemma HoldBlocksExactlyWhen(s: World.Snapshot, others: set<Route>, address: Address)
    requires s.Held() && forall route | route in others :: route.link != Loopback
    ensures GoesTo(KillSwitchRoutes(s) + others, address, Loopback) <==> Unclaimed(s, others, address)
  {
    hide KillSwitchRoutes, GoesTo, Covers;
    if address in s.hosts {
      ResolverBlockedExactlyWhen(s, others, address);
    } else {
      BlockedExactlyWhen(s, others, address);
    }
  }

  /** What no physical route claims never leaves by one, whatever the tunnel adds to the table. */
  ghost predicate NoLeak(s: World.Snapshot, tunnel: set<Route>, physical: set<Route>) {
    var table := KillSwitchRoutes(s) + tunnel + physical;
    forall address, route | Unclaimed(s, physical, address) && Best(table, address, route) ::
      !route.link.Physical?
  }

  lemma HoldNeverLeaks(s: World.Snapshot, tunnel: set<Route>, physical: set<Route>)
    requires s.Held()
    requires forall route | route in tunnel :: route.link.Tunnel?
    ensures NoLeak(s, tunnel, physical)
  {
    hide KillSwitchRoutes, Pow2;
    var table := KillSwitchRoutes(s) + tunnel + physical;
    forall address, route | Unclaimed(s, physical, address) && Best(table, address, route)
      ensures !route.link.Physical?
    {
      LoopbackRoute(s, address);
      var own :| own in KillSwitchRoutes(s) && Covers(own.prefix, address) && own.link == Loopback
                 && own.prefix.length == (if address in s.hosts then Width(address.V6?) else 1)
                 && own.metric == (if address in s.hosts then 1 else KILLSWITCH_METRIC);
      assert Beats(route, own);
      KillSwitchIsLoopback(s);
    }
  }

  lemma KillSwitchIsLoopback(s: World.Snapshot)
    ensures forall route | route in KillSwitchRoutes(s) :: route.link == Loopback
  {}

  /** The loopback route of an address: its own if it is a guarded resolver, its half otherwise. */
  lemma LoopbackRoute(s: World.Snapshot, address: Address)
    requires s.Held()
    ensures exists own ::
      && own in KillSwitchRoutes(s) && Covers(own.prefix, address) && own.link == Loopback
      && own.prefix.length == (if address in s.hosts then Width(address.V6?) else 1)
      && own.metric == (if address in s.hosts then 1 else KILLSWITCH_METRIC)
  {
    hide KillSwitchRoutes, Pow2;
    var half := KillSwitchMatch(s, address);
    if address in s.hosts {
      HostRoute(s, address);
      HostPrefixCovers(address, address);
      assert Route(HostPrefix(address), Loopback, 1) in KillSwitchRoutes(s);
    }
  }

  /**
   A successful installation blocks: every address goes to loopback exactly when no other route claims it, and a
   local resolver of a physical adapter has to be claimed by a host route of metric one at most.
   */
  method InstallBlocks(machine: World.Machine, adapters: Option<seq<Adapter.Adapter>>, readable: bool,
                       ghost others: set<Route>) returns (ok: bool)
    requires machine.Valid() && forall route | route in others :: route.link != Loopback
    modifies machine`now, machine`visited
    ensures ok ==>
      var table := KillSwitchRoutes(machine.now) + others;
      adapters.Some? && forall address :: GoesTo(table, address, Loopback) <==> Unclaimed(machine.now, others, address)
    ensures ok ==> forall address | Adapter.LocalResolver(adapters.value, address) :: address in machine.now.hosts
  {
    hide KillSwitchRoutes, GoesTo, Unclaimed, Routes.OneMissing, Routes.TooMany;
    ghost var deleted;
    ok, deleted := Routes.InstallRoutes(machine, adapters, readable);
    if ok {
      forall address {
        HoldBlocksExactlyWhen(machine.now, others, address);
      }
    }
  }
}
