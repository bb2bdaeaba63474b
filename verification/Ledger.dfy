/** The append-only audit ledger. */
module Ledger {
  import opened Wrappers
  import opened Cidr
  import opened Ranges

  datatype Decision = Allowed | Denied

  datatype EntryOutcome = Connected | ConnectFailed | Validated | Rejected

  datatype Destination = ToAddress(address: Address) | ToNetwork(network: Network)

  /** Why a target or a destination was refused. */
  datatype Refusal =
    | EmptyTarget
    | MalformedCidr
    | Unresolvable
    | NoAddresses
    | PortOutOfRange
    | PrefixTooBroad
    | OutsideScope
    | NotPartOfTarget
    | InDeniedClass(denial: Denial)

  datatype LedgerEntry = LedgerEntry(
    destination: Destination,
    port: Option<int>,
    decision: Decision,
    reason: Option<Refusal>,  // None: "inside the active scope profile"
    outcome: EntryOutcome)

  function DeniedEntry(destination: Destination, port: Option<int>, reason: Refusal): LedgerEntry {
    LedgerEntry(destination, port, Denied, Some(reason), Rejected)
  }

  function AllowedEntry(destination: Destination, port: Option<int>, outcome: EntryOutcome): LedgerEntry {
    LedgerEntry(destination, port, Allowed, None, outcome)
  }

  /** An allowed entry that carries a port records one connection attempt. */
  predicate IsProbe(e: LedgerEntry) {
    e.decision == Allowed && e.port.Some?
  }

  function Select(entries: seq<LedgerEntry>, p: LedgerEntry -> bool): (r: seq<LedgerEntry>)
    ensures |r| <= |entries|
  {
    if entries == [] then []
    else Select(entries[..|entries| - 1], p)
         + (if p(entries[|entries| - 1]) then [entries[|entries| - 1]] else [])
  }

  lemma {:induction false} SelectConcat(s: seq<LedgerEntry>, t: seq<LedgerEntry>, p: LedgerEntry -> bool)
    ensures Select(s + t, p) == Select(s, p) + Select(t, p)
  {
    if t == [] {
      assert s + t == s;
    } else {
      var last := |t| - 1;
      assert (s + t)[..|s + t| - 1] == s + t[..last];
      SelectConcat(s, t[..last], p);
    }
  }

  predicate IsAllowed(e: LedgerEntry) {
    e.decision == Allowed
  }

  predicate IsDenied(e: LedgerEntry) {
    e.decision == Denied
  }

  lemma {:induction false} SelectedAreAll(entries: seq<LedgerEntry>)
    ensures multiset(Select(entries, IsAllowed)) + multiset(Select(entries, IsDenied)) == multiset(entries)
  {
    if entries != [] {
      var init, last := entries[..|entries| - 1], entries[|entries| - 1];
      SelectedAreAll(init);
      assert entries == init + [last];
    }
  }

  class InMemoryLedger {
    var entries: seq<LedgerEntry>

    constructor ()
      ensures entries == []
    {
      entries := [];
    }

    method Record(entry: LedgerEntry)
      modifies this
      ensures entries == old(entries) + [entry]
    {
      entries := entries + [entry];
    }

    function AllowedEntries(): seq<LedgerEntry>
      reads this
    {
      Select(entries, IsAllowed)
    }

    function DeniedEntries(): seq<LedgerEntry>
      reads this
    {
      Select(entries, IsDenied)
    }

    /** The allowed and the denied entries together are the ledger, none twice and none missing. */
    lemma AllowedAndDeniedAreAll()
      ensures multiset(AllowedEntries()) + multiset(DeniedEntries()) == multiset(entries)
      ensures forall e | e in AllowedEntries() :: e.decision == Allowed
      ensures forall e | e in DeniedEntries() :: e.decision == Denied
    {
      SelectedAreAll(entries);
      SelectedFit(entries, IsAllowed);
      SelectedFit(entries, IsDenied);
    }
  }

  lemma {:induction false} SelectedFit(entries: seq<LedgerEntry>, p: LedgerEntry -> bool)
    ensures forall e | e in Select(entries, p) :: p(e)
  {
    if entries != [] {
      SelectedFit(entries[..|entries| - 1], p);
    }
  }
}
