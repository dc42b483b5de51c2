/** Which resolvers of the physical adapters could slip past the kill switch (service/src/windows_adapter.rs). */
module Adapter {
  import opened Wrappers
  import opened Address
  import opened Text

  const TUN_ADAPTER := "varmlen"

  /** An adapter as enumerated; an address of another family than IPv4 or IPv6 reads as nothing. */
  datatype Adapter = Adapter(friendlyName: string, description: string, dnsServers: seq<Option<Address>>)

  predicate IsVarmlen(adapter: Adapter) {
    Lower(adapter.friendlyName) == TUN_ADAPTER || Lower(adapter.description) == TUN_ADAPTER
  }

  /** Octet `i` of an IPv4 address, the most significant first. */
  function Octet(address: Bits32, i: nat): nat
    requires i < 4
  {
    (match i case 0 => address / 0x100_0000 case 1 => address / 0x1_0000 case 2 => address / 0x100
     case _ => address) % 0x100
  }

  /** The two leading octets of an IPv6 address. */
  function LeadingOctets(address: Bits128): (nat, nat) {
    var lead := address / 0x1_0000_0000_0000_0000_0000_0000_0000;
    (lead / 0x100, lead % 0x100)
  }

  /**
   A resolver that a route more specific than the split defaults could reach: private, link-local and
   shared IPv4 space, unique-local and link-local IPv6 space.
   */
  predicate NeedsHostBlackhole(address: Address) {
    match address
    case V4(n) =>
      var first, second := Octet(n, 0), Octet(n, 1);
      || first == 10 || (first == 172 && 16 <= second <= 31) || (first == 192 && second == 168)
      || (first == 169 && second == 254)
      || (first == 100 && 64 <= second <= 127)
    case V6(n) =>
      var (first, second) := LeadingOctets(n);
      || first / 2 == 0xfc / 2
      || (first == 0xfe && second / 0x40 == 0x80 / 0x40)
  }

  /** A local resolver of an adapter other than the tunnel. */
  predicate LocalResolver(adapters: seq<Adapter>, address: Address) {
    NeedsHostBlackhole(address) && exists i | 0 <= i < |adapters| ::
      !IsVarmlen(adapters[i]) && Some(address) in adapters[i].dnsServers
  }

  /** Collect the local resolvers, sorted and without duplicates. */
  method PhysicalDnsServers(adapters: seq<Adapter>) returns (servers: seq<Address>)
    ensures Ordered(servers)
    ensures forall address :: address in servers <==> LocalResolver(adapters, address)
  {
    var list: seq<Address> := [];
    for i := 0 to |adapters|
      invariant forall address :: address in list <==> LocalResolver(adapters[..i], address)
    {
      ghost var known := list;
      if !IsVarmlen(adapters[i]) {
        for j := 0 to |adapters[i].dnsServers|
          invariant forall address :: address in list <==>
                      address in known || (NeedsHostBlackhole(address) && Some(address) in adapters[i].dnsServers[..j])
        {
          match adapters[i].dnsServers[j] {
            case None =>
            case Some(address) =>
              if NeedsHostBlackhole(address) {
                list := list + [address];
              }
          }
        }
      }
      forall address
        ensures LocalResolver(adapters[..i + 1], address) <==>
                LocalResolver(adapters[..i], address)
                || (NeedsHostBlackhole(address) && !IsVarmlen(adapters[i]) && Some(address) in adapters[i].dnsServers)
      {
        assert adapters[..i + 1][i] == adapters[i];
        assert forall k | 0 <= k < i :: adapters[..i][k] == adapters[..i + 1][k];
      }
    }
    assert adapters[..|adapters|] == adapters;
    servers := SortDedup(list);
  }
}
