/** The code-defined ranges of the guard: what may ever be in scope, and what is refused whatever
    the scope says. Private ranges: section 3 of RFC 1918, section 3.1 of RFC 4193, section 7 of
    RFC 6598; documentation ranges: section 3 of RFC 5737. */
module Ranges {
  import opened Wrappers
  import opened Cidr

  /** The constants of the module together with what is library data: Python's `is_global` tables, and whether
      the library looks through IPv4-mapped addresses when it asks for multicast and unspecified ones. */
  datatype RangeTable = RangeTable(
    base: seq<Network>,
    cgnat: Network,
    linkLocal: seq<Network>,
    metadata: seq<Network>,
    multicast: seq<Network>,
    broadcast: BoundedAddress,
    mapped: bool,
    documentation: seq<Network>,
    isGlobal: Address -> bool,
    networkIsGlobal: Network -> bool)

  /** 10.0.0.0/8, 172.16.0.0/12, 192.168.0.0/16, fc00::/7, 127.0.0.0/8, ::1/128 */
  const BASE_ALLOWED_RANGES: seq<Network> := (
    Powers(); Power121();
    [ Aligned4(0x0A00_0000, 8, 0x100_0000), Aligned4(0xAC10_0000, 12, 0x10_0000), Aligned4(0xC0A8_0000, 16, 0x1_0000),
      Aligned6(0xFC00_0000_0000_0000_0000_0000_0000_0000, 7, 0x0200_0000_0000_0000_0000_0000_0000_0000),
      Aligned4(0x7F00_0000, 8, 0x100_0000), Aligned6(1, 128, 1) ])

  /** 100.64.0.0/10 */
  const CGNAT_RANGE: Network := (Powers(); Aligned4(0x6440_0000, 10, 0x40_0000))

  /** 169.254.0.0/16, fe80::/10 */
  const LINK_LOCAL_RANGES: seq<Network> := (
    Powers(); Power118();
    [ Aligned4(0xA9FE_0000, 16, 0x1_0000),
      Aligned6(0xFE80_0000_0000_0000_0000_0000_0000_0000, 10, 0x0040_0000_0000_0000_0000_0000_0000_0000) ])

  /** 169.254.169.254/32, fd00:ec2::254/128 */
  const CLOUD_METADATA_NETWORKS: seq<Network> :=
    [ Aligned4(0xA9FE_A9FE, 32, 1), Aligned6(0xFD00_0EC2_0000_0000_0000_0000_0000_0254, 128, 1) ]

  /** 192.0.2.0/24, 198.51.100.0/24, 203.0.113.0/24 */
  const DOCUMENTATION_RANGES: seq<Network> := (
    Powers();
    [ Aligned4(0xC000_0200, 24, 0x100), Aligned4(0xC633_6400, 24, 0x100), Aligned4(0xCB00_7100, 24, 0x100) ])

  /** 224.0.0.0/4, ff00::/8 */
  const MULTICAST_RANGES: seq<Network> := (
    Powers(); Power120();
    [ Aligned4(0xE000_0000, 4, 0x1000_0000),
      Aligned6(0xFF00_0000_0000_0000_0000_0000_0000_0000, 8, 0x0100_0000_0000_0000_0000_0000_0000_0000) ])

  /** ::ffff:224.0.0.0/100, the IPv4 multicast addresses mapped into IPv6 */
  const MAPPED_MULTICAST: Network := (Powers(); Aligned6(0xFFFF_E000_0000, 100, 0x1000_0000))

  /** ::ffff:0.0.0.0 */
  const MAPPED_UNSPECIFIED: Address := Address(V6, 0xFFFF_0000_0000)

  /** 255.255.255.255 */
  const LIMITED_BROADCAST: BoundedAddress := (Power32(); Address(V4, 0xFFFF_FFFF))

  const ADDRESSES_V4 := 0x1_0000_0000
  const ADDRESSES_V6 := 0x1_0000_0000_0000_0000_0000_0000_0000_0000

  function Aligned4(base: nat, prefixLen: nat, size: nat): Network
    requires prefixLen <= 32 && size == Pow2(32 - prefixLen) && base % size == 0 && base + size <= ADDRESSES_V4
  {
    Power32();
    Block(V4, base, prefixLen, size)
  }

  function Aligned6(base: nat, prefixLen: nat, size: nat): Network
    requires prefixLen <= 128 && size == Pow2(128 - prefixLen) && base % size == 0 && base + size <= ADDRESSES_V6
  {
    Power128();
    Block(V6, base, prefixLen, size)
  }

  function CodeTable(mapped: bool, isGlobal: Address -> bool, networkIsGlobal: Network -> bool): RangeTable {
    RangeTable(BASE_ALLOWED_RANGES, CGNAT_RANGE, LINK_LOCAL_RANGES, CLOUD_METADATA_NETWORKS,
               MULTICAST_RANGES + (if mapped then [MAPPED_MULTICAST] else []),
               LIMITED_BROADCAST, mapped, DOCUMENTATION_RANGES, isGlobal, networkIsGlobal)
  }

  /** The table has the constants of the code, with any library data. */
  ghost predicate HasCodeConstants(t: RangeTable) {
    t == CodeTable(t.mapped, t.isGlobal, t.networkIsGlobal)
  }

  const MIN_IPV4_PREFIX_LENGTH := 16
  const MIN_IPV6_PREFIX_LENGTH := 64

  predicate InSome(a: Address, networks: seq<Network>) {
    exists i | 0 <= i < |networks| :: In(a, networks[i])
  }

  predicate OverlapsSome(n: Network, networks: seq<Network>) {
    exists i | 0 <= i < |networks| :: n.version == networks[i].version && Overlaps(n, networks[i])
  }

  function AllowedRangesFor(t: RangeTable, allowCgnat: bool, allowLinkLocal: bool): seq<Network> {
    t.base + (if allowCgnat then [t.cgnat] else []) + (if allowLinkLocal then t.linkLocal else [])
  }

  predicate IsUnspecified(t: RangeTable, a: Address) {
    a.value == 0 || (t.mapped && a == MAPPED_UNSPECIFIED)
  }

  datatype Denial = CloudMetadata | Multicast | LimitedBroadcast | Unspecified | Documentation | Global

  /** `is_always_denied`: the first class that matches, or None. */
  function IsAlwaysDenied(t: RangeTable, a: Address): Option<Denial> {
    if InSome(a, t.metadata) then Some(CloudMetadata)
    else if InSome(a, t.multicast) then Some(Multicast)
    else if a == t.broadcast then Some(LimitedBroadcast)
    else if IsUnspecified(t, a) then Some(Unspecified)
    else if InSome(a, t.documentation) then Some(Documentation)
    else if t.isGlobal(a) then Some(Global)
    else None
  }

  /** `network_always_denied`. A network is multicast or unspecified when both its ends are; the
      range tests ask for overlap. */
  function NetworkAlwaysDenied(t: RangeTable, n: Network): Option<Denial> {
    if OverlapsSome(n, t.metadata) then Some(CloudMetadata)
    else if InSome(First(n), t.multicast) && InSome(Last(n), t.multicast) then Some(Multicast)
    else if Overlaps(n, HostBlock(t.broadcast)) then Some(LimitedBroadcast)
    else if IsUnspecified(t, First(n)) && IsUnspecified(t, Last(n)) then Some(Unspecified)
    else if OverlapsSome(n, t.documentation) then Some(Documentation)
    else if t.networkIsGlobal(n) then Some(Global)
    else None
  }

  /** `network_within_allowed`: one single range contains the whole network. */
  predicate NetworkWithinAllowed(n: Network, allowed: seq<Network>) {
    exists i | 0 <= i < |allowed| :: n.version == allowed[i].version && SubnetOf(n, allowed[i])
  }

  predicate TooBroad(n: Network) {
    || (n.version == V4 && n.prefixLen < MIN_IPV4_PREFIX_LENGTH)
    || (n.version == V6 && n.prefixLen < MIN_IPV6_PREFIX_LENGTH)
  }

  /** Inside the ranges a scope may ever draw from, only metadata addresses are always denied. */
  ghost predicate Sound(t: RangeTable) {
    && (forall a | InSome(a, AllowedRangesFor(t, true, true)) ::
          && !InSome(a, t.multicast) && a != t.broadcast && !IsUnspecified(t, a)
          && !InSome(a, t.documentation) && !t.isGlobal(a))
    && (forall n | NetworkWithinAllowed(n, AllowedRangesFor(t, true, true)) :: !t.networkIsGlobal(n))
  }

  // ---- the code's constants are sound ----

  lemma Powers()
    ensures Pow2(0) == 1 && Pow2(8) == 0x100 && Pow2(16) == 0x1_0000 && Pow2(20) == 0x10_0000
    ensures Pow2(22) == 0x40_0000 && Pow2(24) == 0x100_0000 && Pow2(28) == 0x1000_0000
  {
  }

  lemma {:induction false} PowerSum(i: nat, j: nat)
    ensures Pow2(i + j) == Pow2(i) * Pow2(j)
  {
    if i > 0 {
      PowerSum(i - 1, j);
      assert Pow2(i + j) == 2 * Pow2(i - 1 + j);
    }
  }

  lemma Power30()
    ensures Pow2(30) == 0x4000_0000
  {
    PowerSum(2, 28);
    Powers();
  }

  lemma Power60()
    ensures Pow2(60) == 0x1000_0000_0000_0000
  {
    Power30();
    PowerSum(30, 30);
  }

  lemma Power32()
    ensures Pow2(32) == ADDRESSES_V4
  {
    PowerSum(4, 28);
    Powers();
  }

  lemma Power128()
    ensures Pow2(128) == ADDRESSES_V6
  {
    PowerSum(8, 120);
    Power120();
    Powers();
  }

  lemma Power120()
    ensures Pow2(120) == 0x0100_0000_0000_0000_0000_0000_0000_0000
  {
    PowerSum(60, 60);
    Power60();
  }

  lemma Power121()
    ensures Pow2(121) == 0x0200_0000_0000_0000_0000_0000_0000_0000
  {
    PowerSum(1, 120);
    Power120();
  }

  lemma Power118()
    ensures Pow2(118) == 0x0040_0000_0000_0000_0000_0000_0000_0000
  {
    PowerSum(2, 118);
    Power120();
  }

  // ---- the classes in numbers ----

  predicate From(a: Address, version: Version, low: nat, high: nat) {
    a.version == version && low <= a.value <= high
  }

  /** 10.0.0.0 to 10.255.255.255, 172.16.0.0 to 172.31.255.255, 192.168.0.0 to 192.168.255.255, 127.0.0.0 to
      127.255.255.255, fc00:: to fdff:..., and ::1 */
  predicate IsPrivate(a: Address) {
    || From(a, V4, 0x0A00_0000, 0x0AFF_FFFF)
    || From(a, V4, 0xAC10_0000, 0xAC1F_FFFF)
    || From(a, V4, 0xC0A8_0000, 0xC0A8_FFFF)
    || From(a, V4, 0x7F00_0000, 0x7FFF_FFFF)
    || From(a, V6, 0xFC00_0000_0000_0000_0000_0000_0000_0000, 0xFDFF_FFFF_FFFF_FFFF_FFFF_FFFF_FFFF_FFFF)
    || From(a, V6, 1, 1)
  }

  /** 100.64.0.0 to 100.127.255.255 */
  predicate IsCgnat(a: Address) {
    From(a, V4, 0x6440_0000, 0x647F_FFFF)
  }

  /** 169.254.0.0 to 169.254.255.255 and fe80:: to febf:... */
  predicate IsLinkLocal(a: Address) {
    || From(a, V4, 0xA9FE_0000, 0xA9FE_FFFF)
    || From(a, V6, 0xFE80_0000_0000_0000_0000_0000_0000_0000, 0xFEBF_FFFF_FFFF_FFFF_FFFF_FFFF_FFFF_FFFF)
  }

  /** 169.254.169.254 and fd00:ec2::254 */
  predicate IsMetadata(a: Address) {
    a == Address(V4, 0xA9FE_A9FE) || a == Address(V6, 0xFD00_0EC2_0000_0000_0000_0000_0000_0254)
  }

  /** 224.0.0.0 to 239.255.255.255, ff00:: to ffff:..., and the mapped ::ffff:224.0.0.0 to ::ffff:239.255.255.255 if
      the library looks through them */
  predicate IsMulticast(a: Address, mapped: bool) {
    || From(a, V4, 0xE000_0000, 0xEFFF_FFFF)
    || From(a, V6, 0xFF00_0000_0000_0000_0000_0000_0000_0000, 0xFFFF_FFFF_FFFF_FFFF_FFFF_FFFF_FFFF_FFFF)
    || (mapped && From(a, V6, 0xFFFF_E000_0000, 0xFFFF_EFFF_FFFF))
  }

  /** 192.0.2.0 to 192.0.2.255, 198.51.100.0 to 198.51.100.255, 203.0.113.0 to 203.0.113.255 */
  predicate IsDocumentation(a: Address) {
    || From(a, V4, 0xC000_0200, 0xC000_02FF)
    || From(a, V4, 0xC633_6400, 0xC633_64FF)
    || From(a, V4, 0xCB00_7100, 0xCB00_71FF)
  }

  lemma InSomeOfConcat(a: Address, s: seq<Network>, t: seq<Network>)
    ensures InSome(a, s + t) <==> InSome(a, s) || InSome(a, t)
  {
    if i :| 0 <= i < |s + t| && In(a, (s + t)[i]) {
      assert if i < |s| then In(a, s[i]) else In(a, t[i - |s|]);
    }
    if i :| 0 <= i < |s| && In(a, s[i]) {
      assert In(a, (s + t)[i]);
    }
    if i :| 0 <= i < |t| && In(a, t[i]) {
      assert In(a, (s + t)[|s| + i]);
    }
  }

  lemma PrivateInNumbers(a: Address)
    ensures InSome(a, BASE_ALLOWED_RANGES) <==> IsPrivate(a)
  {
    var s := BASE_ALLOWED_RANGES;
    assert InSome(a, s) <==> In(a, s[0]) || In(a, s[1]) || In(a, s[2]) || In(a, s[3]) || In(a, s[4]) || In(a, s[5]);
  }

  lemma LinkLocalInNumbers(a: Address)
    ensures InSome(a, LINK_LOCAL_RANGES) <==> IsLinkLocal(a)
  {
    var s := LINK_LOCAL_RANGES;
    assert InSome(a, s) <==> In(a, s[0]) || In(a, s[1]);
  }

  /** The allowed ranges hold the private addresses, and those of an option exactly if it is taken. */
  lemma AllowedInNumbers(t: RangeTable, allowCgnat: bool, allowLinkLocal: bool, a: Address)
    requires HasCodeConstants(t)
    ensures InSome(a, AllowedRangesFor(t, allowCgnat, allowLinkLocal)) <==>
            IsPrivate(a) || (allowCgnat && IsCgnat(a)) || (allowLinkLocal && IsLinkLocal(a))
  {
    var cgnat, linkLocal := if allowCgnat then [t.cgnat] else [], if allowLinkLocal then t.linkLocal else [];
    InSomeOfConcat(a, t.base + cgnat, linkLocal);
    InSomeOfConcat(a, t.base, cgnat);
    PrivateInNumbers(a);
    CgnatInNumbers(a);
    LinkLocalInNumbers(a);
  }

  lemma CgnatInNumbers(a: Address)
    ensures InSome(a, [CGNAT_RANGE]) <==> IsCgnat(a)
  {
    assert InSome(a, [CGNAT_RANGE]) <==> In(a, [CGNAT_RANGE][0]);
  }

  lemma MetadataInNumbers(a: Address)
    ensures InSome(a, CLOUD_METADATA_NETWORKS) <==> IsMetadata(a)
  {
    var s := CLOUD_METADATA_NETWORKS;
    assert InSome(a, s) <==> In(a, s[0]) || In(a, s[1]);
  }

  lemma DocumentationInNumbers(a: Address)
    ensures InSome(a, DOCUMENTATION_RANGES) <==> IsDocumentation(a)
  {
    var s := DOCUMENTATION_RANGES;
    assert InSome(a, s) <==> In(a, s[0]) || In(a, s[1]) || In(a, s[2]);
  }

  lemma MulticastRangesInNumbers(a: Address)
    ensures InSome(a, MULTICAST_RANGES) <==> IsMulticast(a, false)
  {
    var s := MULTICAST_RANGES;
    assert InSome(a, s) <==> In(a, s[0]) || In(a, s[1]);
  }

  lemma MappedMulticastInNumbers(a: Address)
    ensures InSome(a, [MAPPED_MULTICAST]) <==> From(a, V6, 0xFFFF_E000_0000, 0xFFFF_EFFF_FFFF)
  {
    assert InSome(a, [MAPPED_MULTICAST]) <==> In(a, [MAPPED_MULTICAST][0]);
  }

  lemma MulticastInNumbers(t: RangeTable, a: Address)
    requires HasCodeConstants(t)
    ensures InSome(a, t.multicast) <==> IsMulticast(a, t.mapped)
  {
    InSomeOfConcat(a, MULTICAST_RANGES, if t.mapped then [MAPPED_MULTICAST] else []);
    MulticastRangesInNumbers(a);
    MappedMulticastInNumbers(a);
  }

  predicate IsBroadcast(a: Address) {
    a == Address(V4, 0xFFFF_FFFF)
  }

  /** 0.0.0.0, :: and, if the library looks through it, ::ffff:0.0.0.0 */
  predicate IsZero(a: Address, mapped: bool) {
    a.value == 0 || (mapped && a == Address(V6, 0xFFFF_0000_0000))
  }

  /** The lists of the table hold the address as the numbers say. */
  predicate ReadsAs(t: RangeTable, a: Address) {
    && (InSome(a, t.metadata) <==> IsMetadata(a))
    && (InSome(a, t.multicast) <==> IsMulticast(a, t.mapped))
    && (a == t.broadcast <==> IsBroadcast(a))
    && (IsUnspecified(t, a) <==> IsZero(a, t.mapped))
    && (InSome(a, t.documentation) <==> IsDocumentation(a))
  }

  lemma ListsInNumbers(t: RangeTable, a: Address)
    requires HasCodeConstants(t)
    ensures ReadsAs(t, a)
  {
    MetadataInNumbers(a);
    MulticastInNumbers(t, a);
    DocumentationInNumbers(a);
  }

  /** The listed classes have no address in common, so that the reason does not depend on their order; and an
      address is refused as global only if it is in none of them. */
  predicate DeniedAs(t: RangeTable, a: Address, denial: Option<Denial>) {
    && (denial == Some(CloudMetadata) <==> IsMetadata(a))
    && (denial == Some(Multicast) <==> IsMulticast(a, t.mapped))
    && (denial == Some(LimitedBroadcast) <==> IsBroadcast(a))
    && (denial == Some(Unspecified) <==> IsZero(a, t.mapped))
    && (denial == Some(Documentation) <==> IsDocumentation(a))
    && (denial == None ==> !t.isGlobal(a)) && (denial == Some(Global) ==> t.isGlobal(a))
  }

  lemma ClassesAreDisjoint(t: RangeTable, a: Address)
    requires ReadsAs(t, a)
    ensures DeniedAs(t, a, IsAlwaysDenied(t, a))
  {
  }

  /** Every always-denied class in numbers. */
  lemma DeniedInNumbers(t: RangeTable, a: Address)
    requires HasCodeConstants(t)
    ensures DeniedAs(t, a, IsAlwaysDenied(t, a))
  {
    ListsInNumbers(t, a);
    ClassesAreDisjoint(t, a);
  }

  /** The library calls no address and no network within the allowed ranges global. */
  ghost predicate PrivateIsNotGlobal(t: RangeTable) {
    && (forall a | InSome(a, AllowedRangesFor(t, true, true)) :: !t.isGlobal(a))
    && (forall n | NetworkWithinAllowed(n, AllowedRangesFor(t, true, true)) :: !t.networkIsGlobal(n))
  }

  predicate MayBeAllowed(a: Address) {
    IsPrivate(a) || IsCgnat(a) || IsLinkLocal(a)
  }

  predicate SoundAt(t: RangeTable, a: Address) {
    && (InSome(a, AllowedRangesFor(t, true, true)) <==> MayBeAllowed(a))
    && (MayBeAllowed(a) ==> !InSome(a, t.multicast) && a != t.broadcast && !IsUnspecified(t, a)
                            && !InSome(a, t.documentation))
  }

  lemma AllowedIsNotListed(t: RangeTable, a: Address)
    requires ReadsAs(t, a) && (InSome(a, AllowedRangesFor(t, true, true)) <==> MayBeAllowed(a))
    ensures SoundAt(t, a)
  {
  }

  lemma CodeTableIsSoundAt(t: RangeTable, a: Address)
    requires HasCodeConstants(t)
    ensures SoundAt(t, a)
  {
    AllowedInNumbers(t, true, true, a);
    ListsInNumbers(t, a);
    AllowedIsNotListed(t, a);
  }

  lemma SoundFromAll(t: RangeTable)
    requires (forall a :: SoundAt(t, a)) && PrivateIsNotGlobal(t)
    ensures Sound(t)
  {
    forall a | InSome(a, AllowedRangesFor(t, true, true))
      ensures !InSome(a, t.multicast) && a != t.broadcast && !IsUnspecified(t, a) && !InSome(a, t.documentation)
    {
      assert SoundAt(t, a);
    }
  }

  /** With the constants of the code, the metadata addresses are the only always-denied members of the allowed
      ranges. */
  lemma CodeTableIsSound(t: RangeTable)
    requires HasCodeConstants(t) && PrivateIsNotGlobal(t)
    ensures Sound(t)
  {
    forall a
      ensures SoundAt(t, a)
    {
      CodeTableIsSoundAt(t, a);
    }
    SoundFromAll(t);
  }

  lemma DeniedOfAllowed(t: RangeTable, a: Address)
    requires SoundAt(t, a) && DeniedAs(t, a, IsAlwaysDenied(t, a)) && MayBeAllowed(a) && !t.isGlobal(a)
    ensures IsAlwaysDenied(t, a).Some? <==> IsMetadata(a)
  {
  }

  /** So of the addresses a scope may ever draw from, exactly 169.254.169.254 and fd00:ec2::254 are denied. */
  lemma OnlyMetadataIsDenied(t: RangeTable, a: Address)
    requires HasCodeConstants(t) && PrivateIsNotGlobal(t) && MayBeAllowed(a)
    ensures IsAlwaysDenied(t, a).Some? <==> IsMetadata(a)
  {
    CodeTableIsSoundAt(t, a);
    DeniedInNumbers(t, a);
    DeniedOfAllowed(t, a);
  }

  /** A network narrow enough to be a target has at most 65536 addresses, or 2^64 in IPv6. */
  lemma NarrowInNumbers(n: Network)
    ensures TooBroad(n) <==> (if n.version == V4 then 0x1_0000 else 0x1_0000_0000_0000_0000) < n.size
  {
    Power64();
    Powers();
    var bits := if n.version == V4 then 16 else 64;
    var hostBits := Width(n.version) - n.prefixLen;
    if hostBits <= bits {
      PowersDivide(hostBits, bits);
    } else {
      PowersDivide(bits + 1, hostBits);
    }
  }

  lemma Power64()
    ensures Pow2(64) == 0x1_0000_0000_0000_0000
  {
    PowerSum(4, 60);
    Power60();
  }

  // ---- the two denial checks against each other ----

  lemma MemberOfAllowed(n: Network, a: Address, allowed: seq<Network>)
    requires NetworkWithinAllowed(n, allowed) && In(a, n)
    ensures InSome(a, allowed)
  {
    var i :| 0 <= i < |allowed| && n.version == allowed[i].version && SubnetOf(n, allowed[i]);
    assert In(a, allowed[i]);
  }

  lemma WithinMoreRanges(t: RangeTable, n: Network, allowCgnat: bool, allowLinkLocal: bool)
    requires NetworkWithinAllowed(n, AllowedRangesFor(t, allowCgnat, allowLinkLocal))
    ensures NetworkWithinAllowed(n, AllowedRangesFor(t, true, true))
  {
    var some, all := AllowedRangesFor(t, allowCgnat, allowLinkLocal), AllowedRangesFor(t, true, true);
    var i :| 0 <= i < |some| && n.version == some[i].version && SubnetOf(n, some[i]);
    assert some[i] in all;
  }

  lemma OverlapMeansMember(n: Network, networks: seq<Network>)
    ensures OverlapsSome(n, networks) <==> exists a :: In(a, n) && InSome(a, networks)
  {
    if OverlapsSome(n, networks) {
      var i :| 0 <= i < |networks| && n.version == networks[i].version && Overlaps(n, networks[i]);
      OverlapIsSharedAddress(n, networks[i]);
      var a :| In(a, n) && In(a, networks[i]);
      assert InSome(a, networks);
    }
    if a :| In(a, n) && InSome(a, networks) {
      var i :| 0 <= i < |networks| && In(a, networks[i]);
      OverlapIsSharedAddress(n, networks[i]);
    }
  }

  /** An address of the ranges under the options of a profile. */
  predicate IsAllowedBy(a: Address, allowCgnat: bool, allowLinkLocal: bool) {
    IsPrivate(a) || (allowCgnat && IsCgnat(a)) || (allowLinkLocal && IsLinkLocal(a))
  }

  /** The address after the last one of a network. */
  function Next(n: Network): Address {
    Address(n.version, Broadcast(n) + 1)
  }

  predicate EndsPrivateRange(a: Address) {
    || a == Address(V4, 0x0AFF_FFFF) || a == Address(V4, 0xAC1F_FFFF) || a == Address(V4, 0xC0A8_FFFF)
    || a == Address(V4, 0x7FFF_FFFF) || a == Address(V6, 0xFDFF_FFFF_FFFF_FFFF_FFFF_FFFF_FFFF_FFFF)
    || a == Address(V6, 1)
  }

  lemma PrivateRangeEnds(i: nat)
    requires i < |BASE_ALLOWED_RANGES|
    ensures EndsPrivateRange(Last(BASE_ALLOWED_RANGES[i]))
  {
  }

  lemma PrivateRangesDoNotTouch(i: nat)
    requires i < |BASE_ALLOWED_RANGES|
    ensures !MayBeAllowed(Next(BASE_ALLOWED_RANGES[i]))
  {
    PrivateRangeEnds(i);
    AfterPrivateRange(BASE_ALLOWED_RANGES[i]);
  }

  lemma AfterPrivateRange(range: Network)
    requires EndsPrivateRange(Last(range))
    ensures !MayBeAllowed(Next(range))
  {
  }

  lemma OptionalRangesDoNotTouch()
    ensures !MayBeAllowed(Next(CGNAT_RANGE))
    ensures !MayBeAllowed(Next(LINK_LOCAL_RANGES[0])) && !MayBeAllowed(Next(LINK_LOCAL_RANGES[1]))
  {
  }

  /** No two allowed ranges touch. */
  lemma RangesDoNotTouch(t: RangeTable, allowCgnat: bool, allowLinkLocal: bool, i: nat)
    requires HasCodeConstants(t) && i < |AllowedRangesFor(t, allowCgnat, allowLinkLocal)|
    ensures !MayBeAllowed(Next(AllowedRangesFor(t, allowCgnat, allowLinkLocal)[i]))
  {
    var all := AllowedRangesFor(t, allowCgnat, allowLinkLocal);
    OptionalRangesDoNotTouch();
    if i < |t.base| {
      PrivateRangesDoNotTouch(i);
      assert all[i] == BASE_ALLOWED_RANGES[i];
    } else if allowCgnat && i == |t.base| {
      assert all[i] == CGNAT_RANGE;
    } else {
      assert all[i] in t.linkLocal;
    }
  }

  lemma WithinSeparateRanges(n: Network, ranges: seq<Network>, allowCgnat: bool, allowLinkLocal: bool)
    requires forall a :: InSome(a, ranges) <==> IsAllowedBy(a, allowCgnat, allowLinkLocal)
    requires forall i | 0 <= i < |ranges| :: !MayBeAllowed(Next(ranges[i]))
    ensures NetworkWithinAllowed(n, ranges) <==> forall a | In(a, n) :: IsAllowedBy(a, allowCgnat, allowLinkLocal)
  {
    if NetworkWithinAllowed(n, ranges) {
      forall a | In(a, n)
        ensures IsAllowedBy(a, allowCgnat, allowLinkLocal)
      {
        MemberOfAllowed(n, a, ranges);
      }
    }
    if forall a | In(a, n) :: IsAllowedBy(a, allowCgnat, allowLinkLocal) {
      assert In(First(n), n) && InSome(First(n), ranges);
      var i :| 0 <= i < |ranges| && In(First(n), ranges[i]);
      assert !In(Next(ranges[i]), n);
      StaysInRange(n, ranges[i]);
    }
  }

  /** The algebraic check is complete: one allowed range contains the whole network exactly if each of its
      addresses is allowed. */
  lemma WithinAllowedExactly(t: RangeTable, n: Network, allowCgnat: bool, allowLinkLocal: bool)
    requires HasCodeConstants(t)
    ensures NetworkWithinAllowed(n, AllowedRangesFor(t, allowCgnat, allowLinkLocal)) <==>
            forall a | In(a, n) :: IsAllowedBy(a, allowCgnat, allowLinkLocal)
  {
    var ranges := AllowedRangesFor(t, allowCgnat, allowLinkLocal);
    forall a
      ensures InSome(a, ranges) <==> IsAllowedBy(a, allowCgnat, allowLinkLocal)
    {
      AllowedInNumbers(t, allowCgnat, allowLinkLocal, a);
    }
    forall i | 0 <= i < |ranges|
      ensures !MayBeAllowed(Next(ranges[i]))
    {
      RangesDoNotTouch(t, allowCgnat, allowLinkLocal, i);
    }
    WithinSeparateRanges(n, ranges, allowCgnat, allowLinkLocal);
  }

  lemma StaysInRange(n: Network, range: Network)
    requires In(First(n), range) && !In(Next(range), n)
    ensures n.version == range.version && SubnetOf(n, range)
  {
  }

  /** For a network inside one allowed range, the whole-network denial check says exactly what the
      per-address check says of its members. */
  lemma NetworkDenialIsMemberDenial(t: RangeTable, n: Network)
    requires Sound(t) && NetworkWithinAllowed(n, AllowedRangesFor(t, true, true))
    ensures NetworkAlwaysDenied(t, n) == None <==> forall a | In(a, n) :: IsAlwaysDenied(t, a) == None
  {
    forall a | In(a, n)
      ensures InSome(a, AllowedRangesFor(t, true, true))
    {
      MemberOfAllowed(n, a, AllowedRangesFor(t, true, true));
    }
    OverlapMeansMember(n, t.metadata);
    OverlapMeansMember(n, t.documentation);
    OverlapIsSharedAddress(n, HostBlock(t.broadcast));
    assert In(First(n), n) && In(Last(n), n);
  }

  /** The reason given for a network is a class it touches: with both ends, or with some member. */
  ghost predicate ReasonHolds(t: RangeTable, n: Network, reason: Option<Denial>) {
    match reason
    case Some(CloudMetadata) => exists a :: In(a, n) && IsMetadata(a)
    case Some(Multicast) => IsMulticast(First(n), t.mapped) && IsMulticast(Last(n), t.mapped)
    case Some(LimitedBroadcast) => In(Address(V4, 0xFFFF_FFFF), n)
    case Some(Unspecified) => IsZero(First(n), t.mapped) && IsZero(Last(n), t.mapped)
    case Some(Documentation) => exists a :: In(a, n) && IsDocumentation(a)
    case Some(Global) => t.networkIsGlobal(n)
    case None =>
      && !t.networkIsGlobal(n)
      && forall a | In(a, n) :: !IsMetadata(a) && !IsDocumentation(a) && !IsBroadcast(a)
  }

  /** The tests of overlap ask for members. */
  ghost predicate OverlapsAs(t: RangeTable, n: Network) {
    && (OverlapsSome(n, t.metadata) <==> exists a :: In(a, n) && IsMetadata(a))
    && (OverlapsSome(n, t.documentation) <==> exists a :: In(a, n) && IsDocumentation(a))
    && (Overlaps(n, HostBlock(t.broadcast)) <==> In(Address(V4, 0xFFFF_FFFF), n))
  }

  lemma OverlapsInNumbers(t: RangeTable, n: Network)
    requires forall a :: ReadsAs(t, a)
    ensures OverlapsAs(t, n)
  {
    OverlapMeansMember(n, t.metadata);
    OverlapMeansMember(n, t.documentation);
    OverlapIsSharedAddress(n, HostBlock(t.broadcast));
    assert ReadsAs(t, t.broadcast);
    forall a
      ensures InSome(a, t.metadata) <==> IsMetadata(a)
      ensures InSome(a, t.documentation) <==> IsDocumentation(a)
    {
      assert ReadsAs(t, a);
    }
  }

  lemma ReasonFromNumbers(t: RangeTable, n: Network)
    requires ReadsAs(t, First(n)) && ReadsAs(t, Last(n)) && OverlapsAs(t, n)
    ensures ReasonHolds(t, n, NetworkAlwaysDenied(t, n))
  {
  }

  lemma NetworkReasonInNumbers(t: RangeTable, n: Network)
    requires HasCodeConstants(t)
    ensures ReasonHolds(t, n, NetworkAlwaysDenied(t, n))
  {
    forall a
      ensures ReadsAs(t, a)
    {
      ListsInNumbers(t, a);
    }
    OverlapsInNumbers(t, n);
    ReasonFromNumbers(t, n);
  }

  /** Some address of the network is always denied. */
  ghost predicate HasDeniedMember(t: RangeTable, n: Network) {
    exists a :: In(a, n) && IsAlwaysDenied(t, a).Some?
  }

  /** What the whole-network check looks at itself: overlap with a listed class, or both ends in one of the two
      other classes. */
  predicate Sees(t: RangeTable, n: Network) {
    || OverlapsSome(n, t.metadata)
    || (InSome(First(n), t.multicast) && InSome(Last(n), t.multicast))
    || Overlaps(n, HostBlock(t.broadcast))
    || (IsUnspecified(t, First(n)) && IsUnspecified(t, Last(n)))
    || OverlapsSome(n, t.documentation)
  }

  predicate HoldsUnspecified(t: RangeTable, n: Network) {
    n.base == 0 || (t.mapped && In(MAPPED_UNSPECIFIED, n))
  }

  /** A whole multicast range lies in the network. */
  predicate HoldsMulticast(t: RangeTable, n: Network) {
    exists i | 0 <= i < |t.multicast| :: n.version == t.multicast[i].version && SubnetOf(t.multicast[i], n)
  }

  ghost predicate HoldsGlobal(t: RangeTable, n: Network) {
    exists a :: In(a, n) && t.isGlobal(a)
  }

  /** What it cannot see from the ends of a network. */
  ghost predicate Holds(t: RangeTable, n: Network) {
    HoldsUnspecified(t, n) || HoldsMulticast(t, n) || HoldsGlobal(t, n)
  }

  lemma SeenHasDeniedMember(t: RangeTable, n: Network)
    requires Sees(t, n)
    ensures HasDeniedMember(t, n)
  {
    OverlapMeansMember(n, t.metadata);
    OverlapMeansMember(n, t.documentation);
    OverlapIsSharedAddress(n, HostBlock(t.broadcast));
    assert In(First(n), n);
    var a: Address :|
      In(a, n) && (InSome(a, t.metadata) || InSome(a, t.multicast) || a == t.broadcast || IsUnspecified(t, a)
                   || InSome(a, t.documentation));
    assert IsAlwaysDenied(t, a).Some?;
  }

  lemma HeldHasDeniedMember(t: RangeTable, n: Network)
    requires Holds(t, n)
    ensures HasDeniedMember(t, n)
  {
    if HoldsMulticast(t, n) {
      var i :| 0 <= i < |t.multicast| && n.version == t.multicast[i].version && SubnetOf(t.multicast[i], n);
      assert In(First(t.multicast[i]), t.multicast[i]);
      assert In(First(t.multicast[i]), n) && IsAlwaysDenied(t, First(t.multicast[i])).Some?;
    } else if HoldsUnspecified(t, n) {
      var zero := if n.base == 0 then First(n) else MAPPED_UNSPECIFIED;
      assert In(zero, n) && IsAlwaysDenied(t, zero).Some?;
    } else {
      var a :| In(a, n) && t.isGlobal(a);
      assert IsAlwaysDenied(t, a).Some?;
    }
  }

  lemma MulticastMemberIsSeen(t: RangeTable, n: Network, a: Address)
    requires In(a, n) && InSome(a, t.multicast) && !HoldsMulticast(t, n)
    ensures InSome(First(n), t.multicast) && InSome(Last(n), t.multicast)
  {
    var i :| 0 <= i < |t.multicast| && In(a, t.multicast[i]);
    if t.multicast[i].prefixLen <= n.prefixLen {
      NestedOrDisjoint(a, n, t.multicast[i]);
      assert In(First(n), t.multicast[i]) && In(Last(n), t.multicast[i]);
    } else {
      NestedOrDisjoint(a, t.multicast[i], n);
    }
  }

  lemma DeniedMemberIsSeenOrHeld(t: RangeTable, n: Network, a: Address)
    requires In(a, n) && IsAlwaysDenied(t, a).Some?
    ensures Sees(t, n) || Holds(t, n)
  {
    OverlapMeansMember(n, t.metadata);
    OverlapMeansMember(n, t.documentation);
    OverlapIsSharedAddress(n, HostBlock(t.broadcast));
    if InSome(a, t.multicast) && !HoldsMulticast(t, n) {
      MulticastMemberIsSeen(t, n, a);
    }
  }

  /** For every table and every network: the whole-network check refuses exactly the networks with an
      always-denied member if and only if it sees a class itself, or the library calls the network global just
      in case it holds an unspecified address, a whole multicast range or a global address. */
  lemma NetworkDenialIsRightExactly(t: RangeTable, n: Network)
    ensures (NetworkAlwaysDenied(t, n).Some? <==> HasDeniedMember(t, n)) <==>
            Sees(t, n) || (t.networkIsGlobal(n) <==> Holds(t, n))
  {
    if Sees(t, n) {
      SeenHasDeniedMember(t, n);
    } else {
      if Holds(t, n) {
        HeldHasDeniedMember(t, n);
      }
      if a :| In(a, n) && IsAlwaysDenied(t, a).Some? {
        DeniedMemberIsSeenOrHeld(t, n, a);
      }
    }
  }

  lemma NarrowHoldsMulticast(t: RangeTable, n: Network)
    requires HasCodeConstants(t) && !TooBroad(n)
    ensures HoldsMulticast(t, n) <==> t.mapped && n.version == V6 && SubnetOf(MAPPED_MULTICAST, n)
  {
    if i :| 0 <= i < |t.multicast| && n.version == t.multicast[i].version && SubnetOf(t.multicast[i], n) {
      SubnetHasLongerPrefix(t.multicast[i], n);
      BroadMulticast(t, i);
    }
    if t.mapped {
      assert t.multicast[|MULTICAST_RANGES|] == MAPPED_MULTICAST;
    }
  }

  lemma BroadMulticast(t: RangeTable, i: nat)
    requires HasCodeConstants(t) && i < |t.multicast|
    ensures t.multicast[i].prefixLen <= 8 || (t.mapped && t.multicast[i] == MAPPED_MULTICAST)
  {
    if i < |MULTICAST_RANGES| {
      assert t.multicast[i] == MULTICAST_RANGES[i];
    }
  }

  /** With the constants of the code, for an IPv4 network narrow enough to be a target: the check is right
      exactly if it sees a class itself, or the library calls the network global just in case it starts at
      0.0.0.0 or holds a global address. */
  lemma NarrowDenialIsRightExactlyV4(t: RangeTable, n: Network)
    requires HasCodeConstants(t) && !TooBroad(n) && n.version == V4
    ensures (NetworkAlwaysDenied(t, n).Some? <==> HasDeniedMember(t, n)) <==>
            Sees(t, n) || (t.networkIsGlobal(n) <==> n.base == 0 || HoldsGlobal(t, n))
  {
    NetworkDenialIsRightExactly(t, n);
    NarrowHoldsMulticast(t, n);
  }

  /** For an IPv6 network, besides ::, the mapped forms of 0.0.0.0 and of the IPv4 multicast range matter, if
      the library looks through them. */
  lemma NarrowDenialIsRightExactlyV6(t: RangeTable, n: Network)
    requires HasCodeConstants(t) && !TooBroad(n) && n.version == V6
    ensures (NetworkAlwaysDenied(t, n).Some? <==> HasDeniedMember(t, n)) <==>
            || Sees(t, n)
            || (t.networkIsGlobal(n) <==>
                  || n.base == 0 || HoldsGlobal(t, n)
                  || (t.mapped && (In(MAPPED_UNSPECIFIED, n) || SubnetOf(MAPPED_MULTICAST, n))))
  {
    NetworkDenialIsRightExactly(t, n);
    NarrowHoldsMulticast(t, n);
  }

  /** 0.0.0.0/24 */
  const ZERO_NETWORK: Network := (Powers(); Aligned4(0, 24, 0x100))

  /** Outside the allowed ranges the whole-network check is weaker than its documentation says:
      0.0.0.0/24 holds the unspecified address, yet the check passes it. */
  lemma NetworkDenialAloneMissesMembers(t: RangeTable)
    requires HasCodeConstants(t) && !t.networkIsGlobal(ZERO_NETWORK)
    ensures NetworkAlwaysDenied(t, ZERO_NETWORK) == None
    ensures In(Address(V4, 0), ZERO_NETWORK) && IsAlwaysDenied(t, Address(V4, 0)) == Some(Unspecified)
  {
    UnlistedIsUnseen(t, ZERO_NETWORK);
    Unlisted(t, Address(V4, 0));
    assert !Sees(t, ZERO_NETWORK);
  }

  /** 192.0.0.0/24, which the library does not call global, and its member 192.0.0.9, which it does */
  const ASSIGNMENTS_NETWORK: Network := (Powers(); Aligned4(0xC000_0000, 24, 0x100))
  const ANYCAST_ADDRESS: Address := Address(V4, 0xC000_0009)

  /** The check also passes 192.0.0.0/24, although it holds a global address. */
  lemma NetworkDenialMissesGlobalMembers(t: RangeTable)
    requires HasCodeConstants(t) && !t.networkIsGlobal(ASSIGNMENTS_NETWORK) && t.isGlobal(ANYCAST_ADDRESS)
    ensures NetworkAlwaysDenied(t, ASSIGNMENTS_NETWORK) == None
    ensures In(ANYCAST_ADDRESS, ASSIGNMENTS_NETWORK) && IsAlwaysDenied(t, ANYCAST_ADDRESS) == Some(Global)
  {
    UnlistedIsUnseen(t, ASSIGNMENTS_NETWORK);
    Unlisted(t, ANYCAST_ADDRESS);
  }

  /** Neither of the two networks touches a listed class. */
  lemma UnlistedIsUnseen(t: RangeTable, n: Network)
    requires HasCodeConstants(t) && (n == ZERO_NETWORK || n == ASSIGNMENTS_NETWORK)
    ensures !Sees(t, n)
  {
    forall a | In(a, n)
      ensures !InSome(a, t.documentation) && !InSome(a, t.multicast) && !InSome(a, t.metadata) && a != t.broadcast
    {
      Unlisted(t, a);
    }
    OverlapMeansMember(n, t.metadata);
    OverlapMeansMember(n, t.documentation);
    OverlapIsSharedAddress(n, HostBlock(t.broadcast));
    assert In(First(n), n) && In(Last(n), n);
  }

  predicate InTheTwo(a: Address) {
    a.version == V4 && (a.value < 0x100 || 0xC000_0000 <= a.value < 0xC000_0100)
  }

  lemma Unlisted(t: RangeTable, a: Address)
    requires HasCodeConstants(t) && InTheTwo(a)
    ensures !InSome(a, t.documentation) && !InSome(a, t.multicast) && !InSome(a, t.metadata) && a != t.broadcast
  {
    MetadataInNumbers(a);
    MulticastInNumbers(t, a);
    DocumentationInNumbers(a);
  }
}
