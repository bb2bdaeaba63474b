/** Addresses and CIDR blocks with the operations of Python's `ipaddress` that the guard relies on.
    An address is a version and an integer; a block is an aligned base and a prefix length
    (section 3.1 of RFC 4632). Text is not modelled. */
module Cidr {
  datatype Version = V4 | V6

  function Width(v: Version): nat {
    match v
    case V4 => 32
    case V6 => 128
  }

  function Pow2(n: nat): (p: nat)
    ensures 1 <= p
  {
    if n == 0 then 1 else 2 * Pow2(n - 1)
  }

  datatype Address = Address(version: Version, value: nat)

  /** `size` is the number of addresses; the library keeps the same information as a netmask. */
  datatype Block = Block(version: Version, base: nat, prefixLen: nat, size: nat)

  predicate Aligned(b: Block) {
    && b.prefixLen <= Width(b.version)
    && b.size == Pow2(Width(b.version) - b.prefixLen)
    && b.base % b.size == 0
    && b.base + b.size <= Pow2(Width(b.version))
  }

  /** `ip_network(text, strict=False)` clears the host bits, so every network is aligned. */
  type Network = b: Block | Aligned(b) witness Block(V4, 0, 32, 1)

  function Broadcast(n: Network): nat {
    n.base + n.size - 1
  }

  /** An address that its version can hold; the members of a network always are. */
  type BoundedAddress = a: Address | a.value < Pow2(Width(a.version)) witness Address(V4, 0)

  /** The block that holds only `a`. */
  function HostBlock(a: BoundedAddress): (n: Network)
    ensures n.version == a.version
    ensures forall x :: In(x, n) <==> x == a
  {
    Block(a.version, a.value, Width(a.version), 1)
  }

  /** `address in network`, as the closed range of the block. */
  predicate In(a: Address, n: Network) {
    a.version == n.version && n.base <= a.value <= Broadcast(n)
  }

  /** `address in network`, as the library computes it: clearing the host bits gives the base. */
  predicate InByMask(a: Address, n: Network) {
    a.version == n.version && a.value - a.value % n.size == n.base
  }

  /** `a.subnet_of(b)` for two networks of one version. */
  predicate SubnetOf(a: Network, b: Network) {
    b.base <= a.base && Broadcast(a) <= Broadcast(b)
  }

  /** `a.overlaps(b)`: an end of one block lies in the other. */
  predicate Overlaps(a: Network, b: Network) {
    a.version == b.version &&
    (In(First(b), a) || In(Last(b), a) || In(First(a), b) || In(Last(a), b))
  }

  function First(n: Network): Address {
    Address(n.version, n.base)
  }

  function Last(n: Network): Address {
    Address(n.version, Broadcast(n))
  }

  // ---- arithmetic of multiples ----

  lemma MultipleHasNoRemainder(k: nat, m: nat)
    requires 1 <= m
    ensures (k * m) % m == 0
  {
    var q, r := (k * m) / m, (k * m) % m;
    assert k * m == q * m + r;
    Cancel(k, q, r, m);
  }

  lemma Cancel(k: int, q: int, r: int, m: int)
    requires k * m == q * m + r && 0 <= r < m
    ensures k == q && r == 0
  {
    assert (k - q) * m == r;
    if 1 <= k - q {
      LessTimes(1, k - q, m);
    } else if k - q <= -1 {
      LessTimes(k - q, -1, m);
    }
  }

  lemma LessTimes(i: int, j: int, m: int)
    requires i <= j && 0 <= m
    ensures i * m <= j * m
  {
    assert 0 <= (j - i) * m;
  }

  lemma ClearedBits(v: nat, m: nat)
    requires 1 <= m
    ensures 0 <= v - v % m && (v - v % m) % m == 0
  {
    assert v == (v / m) * m + v % m;
    MultipleHasNoRemainder(v / m, m);
  }

  /** Two different multiples of `m` are at least `m` apart. */
  lemma MultiplesApart(x: nat, y: nat, m: nat)
    requires 1 <= m && x % m == 0 && y % m == 0 && x < y
    ensures x + m <= y
  {
    var i, j := x / m, y / m;
    assert x == i * m && y == j * m;
    if i < j {
      LessTimes(i + 1, j, m);
    } else {
      LessTimes(j, i, m);
    }
  }

  lemma PowersDivide(i: nat, j: nat)
    requires i <= j
    ensures Pow2(j) % Pow2(i) == 0 && Pow2(i) <= Pow2(j)
  {
    var k := PowerFactor(i, j);
    MultipleHasNoRemainder(k, Pow2(i));
    LessTimes(1, k, Pow2(i));
  }

  /** A multiple of the larger block size is a multiple of the smaller one. */
  lemma FinerMultiple(x: nat, i: nat, j: nat)
    requires i <= j && x % Pow2(j) == 0
    ensures x % Pow2(i) == 0
  {
    var k := PowerFactor(i, j);
    MultipleOfMultiple(x, Pow2(j), k, Pow2(i));
  }

  lemma MultipleOfMultiple(x: nat, coarse: nat, k: nat, fine: nat)
    requires 1 <= fine && 1 <= coarse && coarse == k * fine && x % coarse == 0
    ensures x % fine == 0
  {
    var q := x / coarse;
    assert x == q * coarse;
    assert q * (k * fine) == (q * k) * fine;
    MultipleHasNoRemainder(q * k, fine);
  }

  lemma {:induction false} PowerFactor(i: nat, j: nat) returns (k: nat)
    requires i <= j
    ensures Pow2(j) == k * Pow2(i) && 1 <= k
  {
    if i == j {
      k := 1;
    } else {
      k := PowerFactor(i, j - 1);
      k := 2 * k;
    }
  }

  // ---- membership, inclusion and overlap ----

  /** Masking decides membership exactly as the closed range of the block does. */
  lemma MaskingIsRange(a: Address, n: Network)
    ensures InByMask(a, n) <==> In(a, n)
  {
    var size := n.size;
    var masked := a.value - a.value % size;
    ClearedBits(a.value, size);
    if masked < n.base {
      MultiplesApart(masked, n.base, size);
    } else if n.base < masked {
      MultiplesApart(n.base, masked, size);
    }
  }

  /** `subnet_of` compares only the two ends, and that is inclusion of every address. */
  lemma SubnetOfIsInclusion(a: Network, b: Network)
    requires a.version == b.version
    ensures SubnetOf(a, b) <==> forall x :: In(x, a) ==> In(x, b)
  {
    if forall x :: In(x, a) ==> In(x, b) {
      assert In(First(a), b) && In(Last(a), b);
    }
  }

  /** Aligned blocks are nested or disjoint: a block that shares one address with a block of no longer
      prefix lies inside it. */
  lemma NestedOrDisjoint(x: Address, inner: Network, outer: Network)
    requires In(x, inner) && In(x, outer)
    requires outer.prefixLen <= inner.prefixLen
    ensures SubnetOf(inner, outer)
  {
    var w := Width(inner.version);
    PowersDivide(w - inner.prefixLen, w - outer.prefixLen);
    var size := inner.size;
    FinerMultiple(outer.base, w - inner.prefixLen, w - outer.prefixLen);
    SumOfMultiples(outer.base, outer.size, size);
    if inner.base < outer.base {
      MultiplesApart(inner.base, outer.base, size);
    }
    if inner.base < outer.base + outer.size {
      MultiplesApart(inner.base, outer.base + outer.size, size);
    }
  }

  lemma SumOfMultiples(x: nat, y: nat, m: nat)
    requires 1 <= m && x % m == 0 && y % m == 0
    ensures (x + y) % m == 0
  {
    assert x == (x / m) * m && y == (y / m) * m;
    assert x + y == (x / m + y / m) * m;
    MultipleHasNoRemainder(x / m + y / m, m);
  }

  /** `overlaps` looks at four ends only, and that is sharing an address. */
  lemma OverlapIsSharedAddress(a: Network, b: Network)
    ensures Overlaps(a, b) <==> exists x :: In(x, a) && In(x, b)
  {
    if exists x :: In(x, a) && In(x, b) {
      var x :| In(x, a) && In(x, b);
    }
  }

  /** A block inside another has at least as long a prefix. */
  lemma SubnetHasLongerPrefix(inner: Network, outer: Network)
    requires inner.version == outer.version && SubnetOf(inner, outer)
    ensures outer.prefixLen <= inner.prefixLen
  {
    if inner.prefixLen < outer.prefixLen {
      var w := Width(inner.version);
      PowersDivide(w - outer.prefixLen, w - outer.prefixLen + 1);
      PowersDivide(w - outer.prefixLen + 1, w - inner.prefixLen);
    }
  }
}
