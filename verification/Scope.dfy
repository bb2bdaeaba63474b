/** Scope profiles: how one is created, and what it contains. */
module Scope {
  import opened Wrappers
  import opened Cidr
  import opened Ranges

  /** One line of a profile, after parsing. */
  datatype ScopeEntry = BlankEntry | MalformedEntry | ParsedEntry(network: Network)

  datatype ScopeError = NoEntries | EmptyEntry | NotANetwork | EntryTooBroad | NotAllowed

  datatype ScopeProfile = ScopeProfile(networks: seq<Network>, allowCgnat: bool, allowLinkLocal: bool)

  predicate ContainsAddress(scope: ScopeProfile, a: Address) {
    InSome(a, scope.networks)
  }

  predicate ContainsNetwork(scope: ScopeProfile, n: Network) {
    NetworkWithinAllowed(n, scope.networks)
  }

  /** Every entry is narrow enough and lies inside one allowed range. */
  ghost predicate Legal(t: RangeTable, scope: ScopeProfile) {
    && scope.networks != []
    && forall i | 0 <= i < |scope.networks| ::
         && !TooBroad(scope.networks[i])
         && NetworkWithinAllowed(scope.networks[i], AllowedRangesFor(t, scope.allowCgnat, scope.allowLinkLocal))
  }

  function EntryProblem(e: ScopeEntry, allowed: seq<Network>): Option<ScopeError> {
    match e
    case BlankEntry => Some(EmptyEntry)
    case MalformedEntry => Some(NotANetwork)
    case ParsedEntry(n) =>
      if TooBroad(n) then Some(EntryTooBroad)
      else if !NetworkWithinAllowed(n, allowed) then Some(NotAllowed)
      else None
  }

  /** At most 65536 addresses, or 2^64 in IPv6, each of them private or in a range opted into. */
  ghost predicate MayBeScoped(e: ScopeEntry, allowCgnat: bool, allowLinkLocal: bool) {
    && e.ParsedEntry?
    && e.network.size <= (if e.network.version == V4 then 0x1_0000 else 0x1_0000_0000_0000_0000)
    && forall a | In(a, e.network) :: IsAllowedBy(a, allowCgnat, allowLinkLocal)
  }

  lemma EntryProblemInNumbers(t: RangeTable, e: ScopeEntry, allowCgnat: bool, allowLinkLocal: bool)
    requires HasCodeConstants(t)
    ensures EntryProblem(e, AllowedRangesFor(t, allowCgnat, allowLinkLocal)) == None <==>
            MayBeScoped(e, allowCgnat, allowLinkLocal)
  {
    if e.ParsedEntry? {
      NarrowInNumbers(e.network);
      WithinAllowedExactly(t, e.network, allowCgnat, allowLinkLocal);
    }
  }

  /** `ScopeProfile.create`: all entries in order, or the problem of the first bad one. */
  method Create(t: RangeTable, entries: seq<ScopeEntry>, allowCgnat: bool, allowLinkLocal: bool)
    returns (r: Result<ScopeProfile, ScopeError>)
    ensures r.Ok? ==>
              && Legal(t, r.value)
              && r.value.allowCgnat == allowCgnat && r.value.allowLinkLocal == allowLinkLocal
              && |r.value.networks| == |entries|
              && forall i | 0 <= i < |entries| :: entries[i] == ParsedEntry(r.value.networks[i])
    ensures r.Err? <==> entries == [] || exists i | 0 <= i < |entries| ::
                          EntryProblem(entries[i], AllowedRangesFor(t, allowCgnat, allowLinkLocal)).Some?
    ensures entries == [] ==> r == Err(NoEntries)
    ensures r.Err? && entries != [] ==> exists i | 0 <= i < |entries| ::
              && EntryProblem(entries[i], AllowedRangesFor(t, allowCgnat, allowLinkLocal)) == Some(r.error)
              && forall j | 0 <= j < i ::
                   EntryProblem(entries[j], AllowedRangesFor(t, allowCgnat, allowLinkLocal)) == None
  {
    if entries == [] {
      return Err(NoEntries);
    }
    var allowed := AllowedRangesFor(t, allowCgnat, allowLinkLocal);
    var networks: seq<Network> := [];
    for i := 0 to |entries|
      invariant |networks| == i
      invariant forall j | 0 <= j < i ::
                  entries[j] == ParsedEntry(networks[j]) && EntryProblem(entries[j], allowed) == None
    {
      match entries[i]
      case BlankEntry => return Err(EmptyEntry);
      case MalformedEntry => return Err(NotANetwork);
      case ParsedEntry(network) =>
        if TooBroad(network) {
          return Err(EntryTooBroad);
        }
        if !NetworkWithinAllowed(network, allowed) {
          return Err(NotAllowed);
        }
        networks := networks + [network];
    }
    return Ok(ScopeProfile(networks, allowCgnat, allowLinkLocal));
  }

  /** With the constants of the code, `Create` succeeds exactly if there are entries and each may be scoped. */
  lemma AcceptanceInNumbers(t: RangeTable, entries: seq<ScopeEntry>, allowCgnat: bool, allowLinkLocal: bool)
    requires HasCodeConstants(t)
    ensures entries == [] || (exists i | 0 <= i < |entries| ::
              EntryProblem(entries[i], AllowedRangesFor(t, allowCgnat, allowLinkLocal)).Some?)
            <==>
            !(entries != [] && forall i | 0 <= i < |entries| :: MayBeScoped(entries[i], allowCgnat, allowLinkLocal))
  {
    forall i | 0 <= i < |entries|
      ensures EntryProblem(entries[i], AllowedRangesFor(t, allowCgnat, allowLinkLocal)) == None <==>
              MayBeScoped(entries[i], allowCgnat, allowLinkLocal)
    {
      EntryProblemInNumbers(t, entries[i], allowCgnat, allowLinkLocal);
    }
  }

  /** Containment of a network is containment in one entry. If every address of the network is in
      scope, that is the case exactly when some overlapping entry has no longer prefix. */
  lemma ContainsNetworkExactly(scope: ScopeProfile, n: Network)
    ensures ContainsNetwork(scope, n) ==> forall a | In(a, n) :: ContainsAddress(scope, a)
    ensures ContainsNetwork(scope, n) <==>
            exists i | 0 <= i < |scope.networks| ::
              Overlaps(n, scope.networks[i]) && scope.networks[i].prefixLen <= n.prefixLen
  {
    forall a | ContainsNetwork(scope, n) && In(a, n)
      ensures ContainsAddress(scope, a)
    {
      MemberOfAllowed(n, a, scope.networks);
    }
    if ContainsNetwork(scope, n) {
      var i :| 0 <= i < |scope.networks| && n.version == scope.networks[i].version && SubnetOf(n, scope.networks[i]);
      SubnetHasLongerPrefix(n, scope.networks[i]);
      assert In(First(n), scope.networks[i]) && In(First(n), n);
      OverlapIsSharedAddress(n, scope.networks[i]);
    }
    if i :| 0 <= i < |scope.networks| && Overlaps(n, scope.networks[i]) && scope.networks[i].prefixLen <= n.prefixLen {
      OverlapIsSharedAddress(n, scope.networks[i]);
      var x :| In(x, n) && In(x, scope.networks[i]);
      NestedOrDisjoint(x, n, scope.networks[i]);
    }
  }

  /** Plain inclusion of addresses is strictly weaker: two adjacent halves cover a network that neither
      contains. */
  lemma TwoHalvesDoNotContain(scope: ScopeProfile, n: Network, lower: Network, upper: Network)
    requires n.version == lower.version == upper.version
    requires lower.prefixLen == upper.prefixLen == n.prefixLen + 1
    requires lower.base == n.base && upper.base == n.base + lower.size
    requires scope.networks == [lower, upper]
    ensures forall a | In(a, n) :: ContainsAddress(scope, a)
    ensures !ContainsNetwork(scope, n)
  {
    assert n.size == 2 * lower.size;
    forall a | In(a, n)
      ensures ContainsAddress(scope, a)
    {
      assert In(a, if a.value < upper.base then scope.networks[0] else scope.networks[1]);
    }
    ContainsNetworkExactly(scope, n);
  }
}
