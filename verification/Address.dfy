/** IP addresses as numbers, and ordered lists of them. */
module Address {
  type Bits32 = n: nat | n < 0x1_0000_0000

  type Bits128 = n: nat | n < 0x1_0000_0000_0000_0000_0000_0000_0000_0000

  datatype Address = V4(v4: Bits32) | V6(v6: Bits128)

  /** A position in one fixed total order of addresses. */
  function Rank(address: Address): nat {
    match address
    case V4(n) => n
    case V6(n) => 0x1_0000_0000 + n
  }

  /** Sorted and without duplicates. */
  predicate Ordered(list: seq<Address>) {
    forall i, j | 0 <= i < j < |list| :: Rank(list[i]) < Rank(list[j])
  }

  lemma OrderedCons(head: Address, rest: seq<Address>)
    requires Ordered(rest) && forall a | a in rest :: Rank(head) < Rank(a)
    ensures Ordered([head] + rest)
  {
    assert forall k | 0 <= k < |rest| :: rest[k] in rest;
  }

  lemma OrderedHead(list: seq<Address>)
    requires Ordered(list) && list != []
    ensures Ordered(list[1..]) && forall a | a in list[1..] :: Rank(list[0]) < Rank(a)
    ensures forall a :: a in list <==> a == list[0] || a in list[1..]
  {
    assert list == [list[0]] + list[1..];
  }

  lemma SomeIn<T>(list: seq<T>)
    ensures list == [] || exists x :: x in list
  {
    assert list != [] ==> list[0] in list;
  }

  /** An ordered list is determined by its elements. */
  lemma {:induction false} OrderedSame(a: seq<Address>, b: seq<Address>)
    requires Ordered(a) && Ordered(b) && forall address :: address in a <==> address in b
    ensures a == b
  {
    if a != [] && b != [] {
      OrderedHead(a);
      OrderedHead(b);
      assert a[0] in b && b[0] in a;
      forall address
        ensures address in a[1..] <==> address in b[1..]
      {
        assert address in a <==> address in b;
      }
      OrderedSame(a[1..], b[1..]);
      assert a == [a[0]] + a[1..] && b == [b[0]] + b[1..];
    } else {
      SomeIn(a);
      SomeIn(b);
    }
  }

  /** `list` with `address` at its place, once. */
  function Insert(address: Address, list: seq<Address>): (r: seq<Address>)
    requires Ordered(list)
    ensures Ordered(r)
    ensures forall a :: a in r <==> a == address || a in list
  {
    if list == [] then [address]
    else
      OrderedHead(list);
      if address == list[0] then list
      else if Rank(address) < Rank(list[0]) then
        OrderedCons(address, list);
        [address] + list
      else
        var rest := Insert(address, list[1..]);
        OrderedCons(list[0], rest);
        [list[0]] + rest
  }

  /** The addresses of `list`, sorted and without duplicates. */
  function SortDedup(list: seq<Address>): (r: seq<Address>)
    ensures Ordered(r)
    ensures forall a :: a in r <==> a in list
  {
    if list == [] then []
    else
      assert list == [list[0]] + list[1..];
      Insert(list[0], SortDedup(list[1..]))
  }
}
