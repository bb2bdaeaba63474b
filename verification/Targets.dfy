/** Target expansion for the probe modules. */
module Targets {
  import opened Wrappers
  import opened Cidr
  import opened Ranges
  import opened Scope
  import opened ScanGuard

  const MAX_EXPANDED_ADDRESSES := 65536

  /** The member addresses a probe module is given: the only address of a network with at most two, and
      otherwise the `hosts()` of the network, which leave out the network address and, for IPv4, the
      broadcast address. */
  predicate Enumerated(n: Network, a: Address) {
    && In(a, n)
    && (if n.size <= 2 then a == First(n) else a != First(n) && (n.version == V4 ==> a != Last(n)))
  }

  /** All but the first address of a network, and in IPv4 all but the last; only the first of one or two. */
  function HostsOf(n: Network): seq<Address> {
    if n.size <= 2 then [Address(n.version, n.base)]
    else seq(if n.version == V4 then n.size - 2 else n.size - 1,
             i requires 0 <= i => Address(n.version, n.base + 1 + i))
  }

  predicate Ascending(s: seq<Address>) {
    forall i, j | 0 <= i < j < |s| :: s[i].value < s[j].value
  }

  /** `iter_target_addresses`; None stands for the module error of a network that is too large. */
  method IterTargetAddresses(target: ValidatedTarget) returns (r: Option<seq<Address>>)
    ensures target.network == None ==> r == Some(target.addresses)
    ensures r.Some? ==> forall a :: a in r.value <==> Iterated(target, a)
    ensures target.network.Some? ==> (r == None <==> MAX_EXPANDED_ADDRESSES < target.network.value.size)
    ensures target.network.Some? && r.Some? ==> Ascending(r.value)
    ensures target.network.Some? && r.Some? ==> r.value == HostsOf(target.network.value)
  {
    if target.network == None {
      return Some(target.addresses);
    }
    var n := target.network.value;
    if MAX_EXPANDED_ADDRESSES < n.size {
      return None;
    }
    if n.size <= 2 {
      return Some([First(n)]);
    }
    var found: seq<Address> := [];
    var next, end := n.base + 1, if n.version == V4 then Broadcast(n) else Broadcast(n) + 1;
    while next < end
      invariant n.base < next <= end
      invariant Ascending(found)
      invariant |found| == next - n.base - 1
      invariant forall i | 0 <= i < |found| :: found[i] == Address(n.version, n.base + 1 + i)
      invariant forall a :: a in found <==> a.version == n.version && n.base < a.value < next
    {
      found := found + [Address(n.version, next)];
      next := next + 1;
    }
    return Some(found);
  }

  /** What the iterator gives for a validated target of any kind. */
  predicate Iterated(target: ValidatedTarget, a: Address) {
    match target.network
    case Some(n) => Enumerated(n, a)
    case None => a in target.addresses
  }

  /** No address given for a validated target, whether a network, an address or a resolved name, is refused by
      `connect` on a valid port. */
  lemma EnumeratedAreNeverRefused(t: RangeTable, scope: ScopeProfile, s: GuardState, raw: RawTarget, a: Address,
                                  port: int)
    requires Sound(t) && Legal(t, scope) && 0 < port <= 65535
    requires AfterValidate(t, scope, s, raw).1.Ok? && Iterated(AfterValidate(t, scope, s, raw).1.value, a)
    ensures ConnectRefusal(t, scope, AfterValidate(t, scope, s, raw).1.value, a, port) == None
  {
    match raw
    case CidrTarget(n) => AcceptedNetworkNeverRefusedLater(t, scope, s, n, a, port);
    case AddressTarget(address) => AcceptedAddressesNeverRefusedLater(t, scope, s, [address], a, port);
    case HostTarget(Some(addresses)) => AcceptedAddressesNeverRefusedLater(t, scope, s, addresses, a, port);
    case _ =>
  }

  lemma AcceptedAddressesNeverRefusedLater(t: RangeTable, scope: ScopeProfile, s: GuardState, addresses: seq<Address>,
                                           a: Address, port: int)
    requires AfterList(t, scope, s, addresses).1.Ok? && a in addresses && 0 < port <= 65535
    ensures ConnectRefusal(t, scope, ValidatedTarget(addresses, None), a, port) == None
  {
    NoneRefused(t, scope, addresses);
    if FirstRefused(t, scope, addresses) < |addresses| {
      FirstRefusedHolds(t, scope, addresses);
    }
  }

  /** The enumeration promises every address the target covers. It gives them all exactly when the
      network is a single address: a /31 or /127 loses its second address, a wider network its ends. */
  lemma EnumerationIsCompleteOnlyForOneAddress(n: Network)
    ensures (forall a | In(a, n) :: Enumerated(n, a)) <==> n.size == 1
  {
    assert In(First(n), n) && In(Last(n), n);
    if n.size == 1 {
      assert First(n) == Last(n);
    } else if n.size == 2 {
      assert !Enumerated(n, Last(n));
    } else {
      assert !Enumerated(n, First(n));
    }
  }

  /** An accepted IPv4 network is always small enough to enumerate; an accepted IPv6 network is exactly
      when its prefix is at least 112. */
  lemma AcceptedNetworksThatCanBeEnumerated(n: Network)
    requires !TooBroad(n)
    ensures n.size <= MAX_EXPANDED_ADDRESSES <==> n.version == V4 || 112 <= n.prefixLen
  {
    Powers();
    var hostBits := Width(n.version) - n.prefixLen;
    if hostBits <= 16 {
      PowersDivide(hostBits, 16);
    } else {
      PowersDivide(17, hostBits);
      assert Pow2(17) == 2 * Pow2(16);
    }
  }
}
