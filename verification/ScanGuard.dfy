/** The only path to a target socket: target validation, the re-check before every connection, and
    the audit entries both leave behind. */
module ScanGuard {
  import opened Wrappers
  import opened Cidr
  import opened Ranges
  import opened Ledger
  import opened Scope

  /** A raw target after text parsing and name resolution, which are not modelled. */
  datatype RawTarget =
    | BlankTarget
    | BadCidrTarget
    | CidrTarget(network: Network)
    | AddressTarget(address: Address)
    | HostTarget(resolved: Option<seq<Address>>)

  datatype ValidatedTarget = ValidatedTarget(addresses: seq<Address>, network: Option<Network>)

  predicate Covers(target: ValidatedTarget, a: Address) {
    match target.network
    case Some(n) => In(a, n)
    case None => a in target.addresses
  }

  datatype Slot = Admitted | OutOfBudget
  datatype ConnectOutcome = Accepted | ConnectionRefused | TimedOut | OtherError

  datatype ConnectError = TargetRejected(reason: Refusal) | BudgetExceeded | SocketError(outcome: ConnectOutcome)

  /** One socket that was opened towards a target. */
  datatype Socket = Socket(target: ValidatedTarget, address: Address, port: int, outcome: ConnectOutcome)

  // ---- the checks ----

  /** What `connect` and the address branch of validation ask of one address. */
  function AddressRefusal(t: RangeTable, scope: ScopeProfile, a: Address): Option<Refusal> {
    match IsAlwaysDenied(t, a)
    case Some(denial) => Some(InDeniedClass(denial))
    case None => if ContainsAddress(scope, a) then None else Some(OutsideScope)
  }

  function NetworkRefusal(t: RangeTable, scope: ScopeProfile, n: Network): Option<Refusal> {
    if TooBroad(n) then Some(PrefixTooBroad)
    else match NetworkAlwaysDenied(t, n)
      case Some(denial) => Some(InDeniedClass(denial))
      case None => if ContainsNetwork(scope, n) then None else Some(OutsideScope)
  }

  predicate AllInScope(t: RangeTable, scope: ScopeProfile, addresses: seq<Address>) {
    forall i | 0 <= i < |addresses| :: AddressRefusal(t, scope, addresses[i]) == None
  }

  function ValidatedEntries(addresses: seq<Address>): seq<LedgerEntry> {
    seq(|addresses|, i requires 0 <= i < |addresses| => AllowedEntry(ToAddress(addresses[i]), None, Validated))
  }

  // ---- the guard ----

  class ScanGuard {
    const ranges: RangeTable
    const scope: ScopeProfile
    const ledger: InMemoryLedger
    ghost var sockets: seq<Socket>  // every socket ever opened, oldest first

    constructor (ranges: RangeTable, scope: ScopeProfile, ledger: InMemoryLedger)
      ensures this.ranges == ranges && this.scope == scope && this.ledger == ledger
      ensures sockets == []
    {
      this.ranges, this.scope, this.ledger, this.sockets := ranges, scope, ledger, [];
    }

    ghost function View(): GuardState
      reads this, ledger
    {
      GuardState(ledger.entries, sockets)
    }

    /** Proves a target in scope or refuses it; opens nothing. */
    method ValidateTarget(raw: RawTarget) returns (r: Result<ValidatedTarget, Refusal>)
      modifies ledger
      ensures (View(), r) == AfterValidate(ranges, scope, old(View()), raw)
    {
      match raw
      case BlankTarget => return Err(EmptyTarget);
      case BadCidrTarget => return Err(MalformedCidr);
      case CidrTarget(network) =>
        var refusal := ValidateNetwork(network);
        return if refusal.Some? then Err(refusal.value) else Ok(ValidatedTarget([], Some(network)));
      case AddressTarget(address) =>
        var refusal := ValidateAddresses([address]);
        return if refusal.Some? then Err(refusal.value) else Ok(ValidatedTarget([address], None));
      case HostTarget(None) => return Err(Unresolvable);
      case HostTarget(Some(addresses)) =>
        var refusal := ValidateAddresses(addresses);
        return if refusal.Some? then Err(refusal.value) else Ok(ValidatedTarget(addresses, None));
    }

    method ValidateNetwork(network: Network) returns (refusal: Option<Refusal>)
      modifies ledger
      ensures refusal == NetworkRefusal(ranges, scope, network)
      ensures ledger.entries == old(ledger.entries) +
              [ if refusal == None then AllowedEntry(ToNetwork(network), None, Validated)
                else DeniedEntry(ToNetwork(network), None, refusal.value) ]
    {
      if TooBroad(network) {
        ledger.Record(DeniedEntry(ToNetwork(network), None, PrefixTooBroad));
        return Some(PrefixTooBroad);
      }
      var denial := NetworkAlwaysDenied(ranges, network);
      if denial.Some? || !ContainsNetwork(scope, network) {
        var reason := if denial.Some? then InDeniedClass(denial.value) else OutsideScope;
        ledger.Record(DeniedEntry(ToNetwork(network), None, reason));
        return Some(reason);
      }
      ledger.Record(AllowedEntry(ToNetwork(network), None, Validated));
      return None;
    }

    method ValidateAddresses(addresses: seq<Address>) returns (refusal: Option<Refusal>)
      modifies ledger
      ensures (refusal, ledger.entries) == AfterAddresses(ranges, scope, old(ledger.entries), addresses)
    {
      if addresses == [] {
        return Some(NoAddresses);
      }
      for i := 0 to |addresses|
        invariant AllInScope(ranges, scope, addresses[..i])
        invariant ledger.entries == old(ledger.entries)
      {
        var denial := IsAlwaysDenied(ranges, addresses[i]);
        if denial.Some? || !ContainsAddress(scope, addresses[i]) {
          var reason := if denial.Some? then InDeniedClass(denial.value) else OutsideScope;
          ledger.Record(DeniedEntry(ToAddress(addresses[i]), None, reason));
          FirstRefusedIs(ranges, scope, addresses, i);
          return Some(reason);
        }
      }
      assert addresses[..|addresses|] == addresses;
      NoneRefused(ranges, scope, addresses);
      for i := 0 to |addresses|
        invariant ledger.entries == old(ledger.entries) + ValidatedEntries(addresses[..i])
      {
        ledger.Record(AllowedEntry(ToAddress(addresses[i]), None, Validated));
        assert ValidatedEntries(addresses[..i + 1]) ==
               ValidatedEntries(addresses[..i]) + [AllowedEntry(ToAddress(addresses[i]), None, Validated)];
      }
      return None;
    }

    /** Re-checks the destination, takes a governor slot and opens one socket. */
    method Connect(target: ValidatedTarget, address: Address, port: int, slot: Slot, outcome: ConnectOutcome)
      returns (r: Result<Socket, ConnectError>)
      modifies this, ledger
      ensures (View(), r) == AfterConnect(ranges, scope, old(View()), target, address, port, slot, outcome)
    {
      if !(0 < port <= 65535) {
        return Err(TargetRejected(PortOutOfRange));
      }
      if !Covers(target, address) {
        ledger.Record(DeniedEntry(ToAddress(address), Some(port), NotPartOfTarget));
        return Err(TargetRejected(NotPartOfTarget));
      }
      var denial := IsAlwaysDenied(ranges, address);
      if denial.Some? || !ContainsAddress(scope, address) {
        var reason := if denial.Some? then InDeniedClass(denial.value) else OutsideScope;
        ledger.Record(DeniedEntry(ToAddress(address), Some(port), reason));
        return Err(TargetRejected(reason));
      }
      if slot == OutOfBudget {
        return Err(BudgetExceeded);
      }
      var sock := Socket(target, address, port, outcome);
      sockets := sockets + [sock];
      if outcome != Accepted {
        ledger.Record(AllowedEntry(ToAddress(address), Some(port), ConnectFailed));
        return Err(SocketError(outcome));
      }
      ledger.Record(AllowedEntry(ToAddress(address), Some(port), Connected));
      return Ok(sock);
    }
  }

  // ---- the guard as a function of its calls ----

  datatype GuardState = GuardState(entries: seq<LedgerEntry>, sockets: seq<Socket>)

  /** The position of the first refused address, or the number of addresses. */
  function FirstRefused(t: RangeTable, scope: ScopeProfile, addresses: seq<Address>): (i: nat)
    ensures i <= |addresses|
  {
    if addresses == [] || AddressRefusal(t, scope, addresses[0]).Some? then 0
    else 1 + FirstRefused(t, scope, addresses[1..])
  }

  lemma {:induction false} FirstRefusedIs(t: RangeTable, scope: ScopeProfile, addresses: seq<Address>, i: nat)
    requires i < |addresses| && AllInScope(t, scope, addresses[..i]) && AddressRefusal(t, scope, addresses[i]).Some?
    ensures FirstRefused(t, scope, addresses) == i
  {
    if i > 0 {
      assert addresses[..i][0] == addresses[0];
      assert addresses[1..][..i - 1] == addresses[..i][1..];
      FirstRefusedIs(t, scope, addresses[1..], i - 1);
    }
  }

  lemma {:induction false} NoneRefused(t: RangeTable, scope: ScopeProfile, addresses: seq<Address>)
    ensures FirstRefused(t, scope, addresses) == |addresses| <==> AllInScope(t, scope, addresses)
  {
    if addresses != [] {
      NoneRefused(t, scope, addresses[1..]);
      assert forall i | 0 < i < |addresses| :: addresses[i] == addresses[1..][i - 1];
    }
  }

  function AfterAddresses(t: RangeTable, scope: ScopeProfile, entries: seq<LedgerEntry>, addresses: seq<Address>)
    : (Option<Refusal>, seq<LedgerEntry>)
  {
    if addresses == [] then (Some(NoAddresses), entries) else
    var i := FirstRefused(t, scope, addresses);
    if i < |addresses| then
      FirstRefusedHolds(t, scope, addresses);
      var reason := AddressRefusal(t, scope, addresses[i]);
      (reason, entries + [DeniedEntry(ToAddress(addresses[i]), None, reason.value)])
    else (None, entries + ValidatedEntries(addresses))
  }

  lemma {:induction false} FirstRefusedHolds(t: RangeTable, scope: ScopeProfile, addresses: seq<Address>)
    requires FirstRefused(t, scope, addresses) < |addresses|
    ensures AddressRefusal(t, scope, addresses[FirstRefused(t, scope, addresses)]).Some?
  {
    if AddressRefusal(t, scope, addresses[0]) == None {
      FirstRefusedHolds(t, scope, addresses[1..]);
    }
  }

  function AfterValidate(t: RangeTable, scope: ScopeProfile, s: GuardState, raw: RawTarget)
    : (GuardState, Result<ValidatedTarget, Refusal>)
  {
    match raw
    case BlankTarget => (s, Err(EmptyTarget))
    case BadCidrTarget => (s, Err(MalformedCidr))
    case HostTarget(None) => (s, Err(Unresolvable))
    case CidrTarget(network) =>
      (match NetworkRefusal(t, scope, network)
       case Some(reason) =>
         (s.(entries := s.entries + [DeniedEntry(ToNetwork(network), None, reason)]), Err(reason))
       case None =>
         (s.(entries := s.entries + [AllowedEntry(ToNetwork(network), None, Validated)]),
          Ok(ValidatedTarget([], Some(network)))))
    case AddressTarget(address) => AfterList(t, scope, s, [address])
    case HostTarget(Some(addresses)) => AfterList(t, scope, s, addresses)
  }

  function AfterList(t: RangeTable, scope: ScopeProfile, s: GuardState, addresses: seq<Address>)
    : (GuardState, Result<ValidatedTarget, Refusal>)
  {
    var (refusal, entries) := AfterAddresses(t, scope, s.entries, addresses);
    (s.(entries := entries),
     if refusal.Some? then Err(refusal.value) else Ok(ValidatedTarget(addresses, None)))
  }

  function ConnectRefusal(t: RangeTable, scope: ScopeProfile, target: ValidatedTarget, address: Address, port: int)
    : Option<Refusal>
  {
    if !(0 < port <= 65535) then Some(PortOutOfRange)
    else if !Covers(target, address) then Some(NotPartOfTarget)
    else AddressRefusal(t, scope, address)
  }

  function AfterConnect(t: RangeTable, scope: ScopeProfile, s: GuardState, target: ValidatedTarget, address: Address,
                        port: int, slot: Slot, outcome: ConnectOutcome)
    : (GuardState, Result<Socket, ConnectError>)
  {
    match ConnectRefusal(t, scope, target, address, port)
    case Some(PortOutOfRange) => (s, Err(TargetRejected(PortOutOfRange)))
    case Some(reason) =>
      (s.(entries := s.entries + [DeniedEntry(ToAddress(address), Some(port), reason)]), Err(TargetRejected(reason)))
    case None =>
      if slot == OutOfBudget then (s, Err(BudgetExceeded)) else
      var sock := Socket(target, address, port, outcome);
      var result := if outcome == Accepted then Connected else ConnectFailed;
      (GuardState(s.entries + [AllowedEntry(ToAddress(address), Some(port), result)], s.sockets + [sock]),
       if outcome == Accepted then Ok(sock) else Err(SocketError(outcome)))
  }

  /** A call on one guard. The targets handed to `connect` are any targets at all. */
  datatype Call =
    | Validate(raw: RawTarget)
    | Connect(target: ValidatedTarget, address: Address, port: int, slot: Slot, outcome: ConnectOutcome)

  function Step(t: RangeTable, scope: ScopeProfile, s: GuardState, c: Call): GuardState {
    match c
    case Validate(raw) => AfterValidate(t, scope, s, raw).0
    case Connect(target, address, port, slot, outcome) =>
      AfterConnect(t, scope, s, target, address, port, slot, outcome).0
  }

  function Run(t: RangeTable, scope: ScopeProfile, s: GuardState, calls: seq<Call>): GuardState {
    if calls == [] then s
    else Step(t, scope, Run(t, scope, s, calls[..|calls| - 1]), calls[|calls| - 1])
  }

  // ---- what every run guarantees ----

  /** A socket the guard may have opened: inside the target it was opened for, inside one scope entry
      that is itself inside one allowed range, and outside every always-denied class. */
  ghost predicate SafeSocket(t: RangeTable, scope: ScopeProfile, o: Socket) {
    && 0 < o.port <= 65535
    && Covers(o.target, o.address)
    && IsAlwaysDenied(t, o.address) == None
    && exists i | 0 <= i < |scope.networks| ::
         && In(o.address, scope.networks[i])
         && NetworkWithinAllowed(scope.networks[i], AllowedRangesFor(t, scope.allowCgnat, scope.allowLinkLocal))
  }

  lemma {:induction false} EverySocketIsSafe(t: RangeTable, scope: ScopeProfile, s: GuardState, calls: seq<Call>)
    requires Legal(t, scope) && AllSafe(t, scope, s.sockets)
    ensures AllSafe(t, scope, Run(t, scope, s, calls).sockets)
  {
    if calls != [] {
      EverySocketIsSafe(t, scope, s, calls[..|calls| - 1]);
      StepKeepsSafe(t, scope, Run(t, scope, s, calls[..|calls| - 1]), calls[|calls| - 1]);
    }
  }

  ghost predicate AllSafe(t: RangeTable, scope: ScopeProfile, sockets: seq<Socket>) {
    forall i | 0 <= i < |sockets| :: SafeSocket(t, scope, sockets[i])
  }

  lemma StepKeepsSafe(t: RangeTable, scope: ScopeProfile, s: GuardState, c: Call)
    requires Legal(t, scope) && AllSafe(t, scope, s.sockets)
    ensures AllSafe(t, scope, Step(t, scope, s, c).sockets)
  {
    if c.Connect? && ConnectRefusal(t, scope, c.target, c.address, c.port) == None {
      UnrefusedIsSafe(t, scope, Socket(c.target, c.address, c.port, c.outcome));
    }
  }

  lemma UnrefusedIsSafe(t: RangeTable, scope: ScopeProfile, o: Socket)
    requires Legal(t, scope) && ConnectRefusal(t, scope, o.target, o.address, o.port) == None
    ensures SafeSocket(t, scope, o)
  {
    var i :| 0 <= i < |scope.networks| && In(o.address, scope.networks[i]);
    assert NetworkWithinAllowed(scope.networks[i], AllowedRangesFor(t, scope.allowCgnat, scope.allowLinkLocal));
  }

  /** The same in numbers: a private address, or one of a range the profile opts into, and neither a metadata
      address nor one of the other classes that are never a target. */
  predicate SafeInNumbers(t: RangeTable, scope: ScopeProfile, o: Socket) {
    && 1 <= o.port <= 65535 && Covers(o.target, o.address)
    && IsAllowedBy(o.address, scope.allowCgnat, scope.allowLinkLocal)
    && (!scope.allowCgnat ==> !IsCgnat(o.address)) && (!scope.allowLinkLocal ==> !IsLinkLocal(o.address))
    && !IsMetadata(o.address) && !IsMulticast(o.address, t.mapped) && !IsBroadcast(o.address)
    && !IsZero(o.address, t.mapped) && !IsDocumentation(o.address) && !t.isGlobal(o.address)
  }

  lemma SafeSocketInNumbers(t: RangeTable, scope: ScopeProfile, o: Socket)
    requires HasCodeConstants(t) && SafeSocket(t, scope, o)
    ensures SafeInNumbers(t, scope, o)
  {
    var i :| 0 <= i < |scope.networks| && In(o.address, scope.networks[i])
             && NetworkWithinAllowed(scope.networks[i], AllowedRangesFor(t, scope.allowCgnat, scope.allowLinkLocal));
    WithinAllowedExactly(t, scope.networks[i], scope.allowCgnat, scope.allowLinkLocal);
    DeniedInNumbers(t, o.address);
    FromNumbers(t, scope, o);
  }

  lemma FromNumbers(t: RangeTable, scope: ScopeProfile, o: Socket)
    requires SafeSocket(t, scope, o) && IsAllowedBy(o.address, scope.allowCgnat, scope.allowLinkLocal)
    requires DeniedAs(t, o.address, IsAlwaysDenied(t, o.address))
    ensures SafeInNumbers(t, scope, o)
  {
  }

  /** With the constants of the code, over any calls on a guard. */
  lemma EverySocketInNumbers(t: RangeTable, scope: ScopeProfile, calls: seq<Call>, o: Socket)
    requires HasCodeConstants(t) && Legal(t, scope) && o in Run(t, scope, GuardState([], []), calls).sockets
    ensures SafeInNumbers(t, scope, o)
  {
    EverySocketIsSafe(t, scope, GuardState([], []), calls);
    SafeSocketInNumbers(t, scope, o);
  }

  predicate Matches(o: Socket, e: LedgerEntry) {
    && e.destination == ToAddress(o.address) && e.port == Some(o.port)
    && e.outcome == (if o.outcome == Accepted then Connected else ConnectFailed)
  }

  /** For calls one after the other, each running to its end, the audit trail is exact: reading the allowed
      entries with a port, in order, gives the opened sockets, in order, with their outcome. For calls that
      overlap or are cancelled see `ConnectOutcomes`. */
  lemma {:induction false} LedgerListsEverySocket(t: RangeTable, scope: ScopeProfile, calls: seq<Call>)
    ensures var s := Run(t, scope, GuardState([], []), calls);
            Lists(s.sockets, Select(s.entries, IsProbe))
  {
    if calls != [] {
      LedgerListsEverySocket(t, scope, calls[..|calls| - 1]);
      StepKeepsListing(t, scope, Run(t, scope, GuardState([], []), calls[..|calls| - 1]), calls[|calls| - 1]);
    }
  }

  predicate Lists(sockets: seq<Socket>, probes: seq<LedgerEntry>) {
    |probes| == |sockets| && forall i | 0 <= i < |probes| :: Matches(sockets[i], probes[i])
  }

  lemma StepKeepsListing(t: RangeTable, scope: ScopeProfile, s: GuardState, c: Call)
    requires Lists(s.sockets, Select(s.entries, IsProbe))
    ensures Lists(Step(t, scope, s, c).sockets, Select(Step(t, scope, s, c).entries, IsProbe))
  {
    var added := NewEntries(t, scope, s, c);
    SelectConcat(s.entries, added, IsProbe);
    ListingGrows(s.sockets, Step(t, scope, s, c).sockets, Select(s.entries, IsProbe), Select(added, IsProbe));
  }

  lemma ListingGrows(sockets: seq<Socket>, grown: seq<Socket>, probes: seq<LedgerEntry>, added: seq<LedgerEntry>)
    requires Lists(sockets, probes) && Adds(sockets, grown, added)
    ensures Lists(grown, probes + added)
  {
    forall i | 0 <= i < |grown|
      ensures Matches(grown[i], (probes + added)[i])
    {
      if i < |sockets| {
        assert grown[..|sockets|][i] == sockets[i];
      }
    }
  }

  /** At most one more socket, with its entry. */
  predicate Adds(sockets: seq<Socket>, grown: seq<Socket>, added: seq<LedgerEntry>) {
    if added == [] then grown == sockets
    else
      && |added| == 1 && |grown| == |sockets| + 1 && grown[..|sockets|] == sockets
      && Matches(grown[|sockets|], added[0])
  }

  /** No call removes or changes a ledger entry. */
  lemma {:induction false} LedgerOnlyGrows(t: RangeTable, scope: ScopeProfile, s: GuardState, calls: seq<Call>)
    ensures s.entries <= Run(t, scope, s, calls).entries
  {
    if calls != [] {
      LedgerOnlyGrows(t, scope, s, calls[..|calls| - 1]);
      var added := NewEntries(t, scope, Run(t, scope, s, calls[..|calls| - 1]), calls[|calls| - 1]);
    }
  }

  /** The entries one call appends; none of a validation is a probe. */
  lemma NewEntries(t: RangeTable, scope: ScopeProfile, s: GuardState, c: Call) returns (added: seq<LedgerEntry>)
    ensures Step(t, scope, s, c).entries == s.entries + added
    ensures Adds(s.sockets, Step(t, scope, s, c).sockets, Select(added, IsProbe))
  {
    if c.Validate? {
      added := ValidationEntries(t, scope, s, c.raw);
    } else {
      added := ConnectEntries(t, scope, s, c);
    }
  }

  lemma ValidationEntries(t: RangeTable, scope: ScopeProfile, s: GuardState, raw: RawTarget)
    returns (added: seq<LedgerEntry>)
    ensures AfterValidate(t, scope, s, raw).0 == GuardState(s.entries + added, s.sockets)
    ensures Select(added, IsProbe) == []
  {
    added := AfterValidate(t, scope, s, raw).0.entries[|s.entries|..];
    NoProbes(added);
  }

  lemma ConnectEntries(t: RangeTable, scope: ScopeProfile, s: GuardState, c: Call) returns (added: seq<LedgerEntry>)
    requires c.Connect?
    ensures Step(t, scope, s, c).entries == s.entries + added
    ensures Adds(s.sockets, Step(t, scope, s, c).sockets, Select(added, IsProbe))
  {
    var Connect(target, address, port, slot, outcome) := c;
    var after := AfterConnect(t, scope, s, target, address, port, slot, outcome).0;
    var refusal := ConnectRefusal(t, scope, target, address, port);
    if refusal == None && slot != OutOfBudget {
      var result := if outcome == Accepted then Connected else ConnectFailed;
      var entry := AllowedEntry(ToAddress(address), Some(port), result);
      added := [entry];
      assert after == GuardState(s.entries + added, s.sockets + [Socket(target, address, port, outcome)]);
    } else if refusal.Some? && refusal.value != PortOutOfRange {
      var entry := DeniedEntry(ToAddress(address), Some(port), refusal.value);
      added := [entry];
      assert after == s.(entries := s.entries + added);
    } else {
      added := [];
      assert after == s;
    }
  }

  lemma {:induction false} NoProbes(entries: seq<LedgerEntry>)
    requires forall i | 0 <= i < |entries| :: !IsProbe(entries[i])
    ensures Select(entries, IsProbe) == []
  {
    if entries != [] {
      NoProbes(entries[..|entries| - 1]);
    }
  }

  /** A hostname is accepted or refused whole: with any bad address it leaves exactly one denied entry,
      for the first bad one, and nothing is allowed. */
  lemma HostnameIsAllOrNothing(t: RangeTable, scope: ScopeProfile, s: GuardState, addresses: seq<Address>)
    requires addresses != []
    ensures var (after, r) := AfterValidate(t, scope, s, HostTarget(Some(addresses)));
            && (r.Ok? <==> forall a | a in addresses :: AddressRefusal(t, scope, a) == None)
            && (r.Ok? ==> after.entries == s.entries + ValidatedEntries(addresses))
            && (r.Err? ==> exists i | 0 <= i < |addresses| ::
                  && AddressRefusal(t, scope, addresses[i]) == Some(r.error)
                  && (forall j | 0 <= j < i :: AddressRefusal(t, scope, addresses[j]) == None)
                  && after.entries == s.entries + [DeniedEntry(ToAddress(addresses[i]), None, r.error)])
  {
    var i := FirstRefused(t, scope, addresses);
    NoneRefused(t, scope, addresses);
    if i < |addresses| {
      FirstRefusedHolds(t, scope, addresses);
      BeforeFirstRefused(t, scope, addresses);
    }
  }

  lemma {:induction false} BeforeFirstRefused(t: RangeTable, scope: ScopeProfile, addresses: seq<Address>)
    ensures forall j | 0 <= j < FirstRefused(t, scope, addresses) :: AddressRefusal(t, scope, addresses[j]) == None
  {
    if addresses != [] && AddressRefusal(t, scope, addresses[0]) == None {
      BeforeFirstRefused(t, scope, addresses[1..]);
      assert forall j | 0 < j < |addresses| :: addresses[j] == addresses[1..][j - 1];
    }
  }

  /** Refusals that leave no audit entry: an empty target, bad CIDR text, a name without an address and
      a bad port. Every other refusal leaves exactly one denied entry with its reason. */
  predicate Unrecorded(reason: Refusal) {
    || reason.EmptyTarget? || reason.MalformedCidr? || reason.Unresolvable?
    || reason.NoAddresses? || reason.PortOutOfRange?
  }

  lemma RefusalLeavesOneEntry(t: RangeTable, scope: ScopeProfile, s: GuardState, c: Call, reason: Refusal)
    requires match c
             case Validate(raw) => AfterValidate(t, scope, s, raw).1 == Err(reason)
             case Connect(target, address, port, slot, outcome) =>
               AfterConnect(t, scope, s, target, address, port, slot, outcome).1 == Err(TargetRejected(reason))
    ensures Step(t, scope, s, c).sockets == s.sockets
    ensures Unrecorded(reason) <==> Step(t, scope, s, c).entries == s.entries
    ensures !Unrecorded(reason) ==>
              && RefusedAt(t, scope, c).Some?
              && Step(t, scope, s, c).entries
                 == s.entries + [DeniedEntry(RefusedAt(t, scope, c).value, PortOf(c), reason)]
  {
    if c.Validate? && c.raw.HostTarget? && c.raw.resolved.Some? && c.raw.resolved.value != [] {
      FirstRefusedHolds(t, scope, c.raw.resolved.value);
    }
  }

  /** What a refused call is refused for: the network, the first bad address, or the destination. */
  function RefusedAt(t: RangeTable, scope: ScopeProfile, c: Call): Option<Destination> {
    match c
    case Validate(CidrTarget(network)) => Some(ToNetwork(network))
    case Validate(AddressTarget(address)) => Some(ToAddress(address))
    case Validate(HostTarget(Some(addresses))) =>
      var i := FirstRefused(t, scope, addresses);
      if i < |addresses| then Some(ToAddress(addresses[i])) else None
    case Validate(_) => None
    case Connect(_, address, _, _, _) => Some(ToAddress(address))
  }

  function PortOf(c: Call): Option<int> {
    if c.Connect? then Some(c.port) else None
  }

  // ---- the network check refines the address check ----

  lemma LegalScopeIsWithinAll(t: RangeTable, scope: ScopeProfile, n: Network)
    requires Legal(t, scope) && ContainsNetwork(scope, n)
    ensures NetworkWithinAllowed(n, AllowedRangesFor(t, true, true))
  {
    var i :| 0 <= i < |scope.networks| && n.version == scope.networks[i].version && SubnetOf(n, scope.networks[i]);
    var allowed := AllowedRangesFor(t, scope.allowCgnat, scope.allowLinkLocal);
    var j :| 0 <= j < |allowed|
             && scope.networks[i].version == allowed[j].version && SubnetOf(scope.networks[i], allowed[j]);
    assert SubnetOf(n, allowed[j]);
    WithinMoreRanges(t, n, scope.allowCgnat, scope.allowLinkLocal);
  }

  /** The algebraic check of a CIDR target is exact: it passes a network that is narrow enough if and
      only if every member address passes `connect`'s own check and one scope entry that overlaps the
      network has no longer prefix. */
  lemma NetworkCheckIsExact(t: RangeTable, scope: ScopeProfile, n: Network)
    requires Sound(t) && Legal(t, scope)
    ensures NetworkRefusal(t, scope, n) == None <==>
            && !TooBroad(n)
            && (forall a | In(a, n) :: AddressRefusal(t, scope, a) == None)
            && exists i | 0 <= i < |scope.networks| ::
                 Overlaps(n, scope.networks[i]) && scope.networks[i].prefixLen <= n.prefixLen
  {
    ContainsNetworkExactly(scope, n);
    if ContainsNetwork(scope, n) {
      LegalScopeIsWithinAll(t, scope, n);
      NetworkDenialIsMemberDenial(t, n);
    }
  }

  /** So no member of an accepted network, on any valid port, is refused later by `connect`. */
  lemma AcceptedNetworkNeverRefusedLater(t: RangeTable, scope: ScopeProfile, s: GuardState, n: Network, a: Address,
                                         port: int)
    requires Sound(t) && Legal(t, scope) && In(a, n) && 0 < port <= 65535
    requires AfterValidate(t, scope, s, CidrTarget(n)).1.Ok?
    ensures ConnectRefusal(t, scope, AfterValidate(t, scope, s, CidrTarget(n)).1.value, a, port) == None
  {
    NetworkCheckIsExact(t, scope, n);
  }
}
