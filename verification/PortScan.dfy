/** The TCP port scan: probe outcomes to observations, observations to findings, and how later modules
    read the open ports back. */
module PortScan {
  import opened Wrappers
  import opened Counting
  import opened Sorting
  import opened Waves
  import opened Governor

  datatype PortState = Open | Closed | Filtered

  datatype Observation = Observation(host: Host, port: int, state: PortState)

  /** How one probe ends: not started because of a cancel, refused by the budget, a connect with one of four
      outcomes, or an exception that is not handled here. */
  datatype ProbeEnd = NotStarted | OutOfBudget | Accepted | Refused | TimedOut | UnreachableOrReset | Raised

  /** The probe observes the state of its port. */
  predicate Counted(e: ProbeEnd) {
    e.Accepted? || e.Refused? || e.TimedOut? || e.UnreachableOrReset?
  }

  /** `_probe_state`: silence and host errors are filtered, never closed. */
  function StateOf(e: ProbeEnd): PortState
    requires Counted(e)
  {
    match e
    case Accepted => Open
    case Refused => Closed
    case TimedOut => Filtered
    case UnreachableOrReset => Filtered
  }

  datatype HostSummary = HostSummary(probed: nat, openPorts: seq<int>, closedCount: nat, filteredCount: nat)

  datatype Finding =
    | PortOpen(host: Host, port: int)
    | PortSummary(host: Host, summary: HostSummary)
    | OtherFinding(host: Host)

  datatype ModuleResult = ModuleResult(findings: seq<Finding>, budgetReached: bool)

  // ---- what the scan reports ----

  function On(observations: seq<Observation>, host: Host): seq<Observation> {
    if observations == [] then [] else
    var last := observations[|observations| - 1];
    On(observations[..|observations| - 1], host) + (if last.host == host then [last] else [])
  }

  function OpenPorts(observations: seq<Observation>): seq<int> {
    if observations == [] then [] else
    var last := observations[|observations| - 1];
    OpenPorts(observations[..|observations| - 1]) + (if last.state.Open? then [last.port] else [])
  }

  function InState(state: PortState): Observation -> bool {
    (o: Observation) => o.state == state
  }

  function HostsOf(observations: seq<Observation>): seq<Host> {
    if observations == [] then [] else
    var before := HostsOf(observations[..|observations| - 1]);
    var host := observations[|observations| - 1].host;
    if host in before then before else before + [host]
  }

  function SummaryOf(observations: seq<Observation>): HostSummary {
    HostSummary(|observations|, Sort(OpenPorts(observations)),
                Count(observations, InState(Closed)), Count(observations, InState(Filtered)))
  }

  function OpenFindings(host: Host, ports: seq<int>): seq<Finding> {
    seq(|ports|, i requires 0 <= i < |ports| => PortOpen(host, ports[i]))
  }

  function HostFindings(host: Host, observations: seq<Observation>): seq<Finding> {
    OpenFindings(host, Sort(OpenPorts(observations))) + [PortSummary(host, SummaryOf(observations))]
  }

  function FindingsFor(observations: seq<Observation>, hosts: seq<Host>): seq<Finding> {
    if hosts == [] then [] else
    var last := hosts[|hosts| - 1];
    FindingsFor(observations, hosts[..|hosts| - 1]) + HostFindings(last, On(observations, last))
  }

  // ---- the code ----

  /** `_to_findings`, first loop. The dictionary keeps its keys in the order of their first insertion. */
  method GroupByHost(observations: seq<Observation>) returns (keys: seq<Host>, perHost: map<Host, seq<Observation>>)
    ensures keys == HostsOf(observations)
    ensures forall h :: h in perHost <==> h in keys
    ensures forall h | h in perHost :: perHost[h] == On(observations, h)
  {
    perHost, keys := map[], [];
    for i := 0 to |observations|
      invariant keys == HostsOf(observations[..i])
      invariant forall h :: h in perHost <==> h in keys
      invariant forall h | h in perHost :: perHost[h] == On(observations[..i], h)
    {
      var o := observations[i];
      assert observations[..i + 1] == observations[..i] + [o];
      if o.host !in perHost {
        HostsAreDistinct(observations[..i]);
        keys := keys + [o.host];
        perHost := perHost[o.host := []];
      }
      forall h
        ensures On(observations[..i + 1], h) == On(observations[..i], h) + if o.host == h then [o] else []
      {
        OnAppend(observations[..i], o, h);
      }
      perHost := perHost[o.host := perHost[o.host] + [o]];
    }
    assert observations[..|observations|] == observations;
  }

  lemma OnAppend(observations: seq<Observation>, o: Observation, host: Host)
    ensures On(observations + [o], host) == On(observations, host) + if o.host == host then [o] else []
    ensures HostsOf(observations + [o]) ==
            if o.host in HostsOf(observations) then HostsOf(observations) else HostsOf(observations) + [o.host]
  {
    assert (observations + [o])[..|observations|] == observations;
  }

  /** `_to_findings`, second loop. */
  method ToFindings(observations: seq<Observation>) returns (findings: seq<Finding>)
    ensures findings == FindingsFor(observations, HostsOf(observations))
  {
    var keys, perHost := GroupByHost(observations);
    findings := [];
    for k := 0 to |keys|
      invariant findings == FindingsFor(observations, keys[..k])
    {
      var host := keys[k];
      var seen := perHost[host];
      var openPorts := Sort(OpenPorts(seen));
      var closed, filtered := Count(seen, InState(Closed)), Count(seen, InState(Filtered));
      findings := findings + (OpenFindings(host, openPorts) +
                              [PortSummary(host, HostSummary(|seen|, openPorts, closed, filtered))]);
      assert keys[..k + 1][..k] == keys[..k];
    }
    assert keys[..|keys|] == keys;
  }

  /** `ModuleContext.open_ports_by_host`. */
  method OpenPortsByHost(findings: seq<Finding>) returns (byHost: map<Host, seq<int>>)
    ensures forall h :: h in byHost <==> PortsIn(findings, h) != []
    ensures forall h | h in byHost :: byHost[h] == Sort(PortsIn(findings, h))
  {
    var found: map<Host, seq<int>> := map[];
    for i := 0 to |findings|
      invariant forall h :: (if h in found then found[h] else []) == PortsIn(findings[..i], h)
      invariant forall h | h in found :: found[h] != []
    {
      assert findings[..i + 1][..i] == findings[..i];
      var f := findings[i];
      if f.PortOpen? {
        found := found[f.host := (if f.host in found then found[f.host] else []) + [f.port]];
      }
    }
    assert findings[..|findings|] == findings;
    byHost := map h | h in found :: Sort(found[h]);
  }

  function PortsIn(findings: seq<Finding>, host: Host): seq<int> {
    if findings == [] then [] else
    var last := findings[|findings| - 1];
    PortsIn(findings[..|findings| - 1], host) + (if last.PortOpen? && last.host == host then [last.port] else [])
  }

  /** Every address with every port, in that order. */
  function Probes(addresses: seq<Host>, ports: seq<int>): seq<(Host, int)> {
    if addresses == [] then [] else
    Probes(addresses[..|addresses| - 1], ports)
    + seq(|ports|, i requires 0 <= i < |ports| => (addresses[|addresses| - 1], ports[i]))
  }

  /** What the probes have observed; `ends[i]` is how probe `i` ended. */
  function Observed(probes: seq<(Host, int)>, ends: seq<ProbeEnd>): seq<Observation>
    requires |ends| == |probes|
  {
    if probes == [] then [] else
    var last, end := probes[|probes| - 1], ends[|probes| - 1];
    Observed(probes[..|probes| - 1], ends[..|probes| - 1])
    + (if Counted(end) then [Observation(last.0, last.1, StateOf(end))] else [])
  }

  // ---- what the findings say of the probes ----

  /** How many probes are of that kind, by host, port and end. */
  function ProbesThat(probes: seq<(Host, int)>, ends: seq<ProbeEnd>, are: (Host, int, ProbeEnd) -> bool): nat
    requires |ends| == |probes|
  {
    if probes == [] then 0 else
    var last, end := probes[|probes| - 1], ends[|probes| - 1];
    ProbesThat(probes[..|probes| - 1], ends[..|probes| - 1], are) + (if are(last.0, last.1, end) then 1 else 0)
  }

  function OpenAt(host: Host, port: int): (Host, int, ProbeEnd) -> bool {
    (h: Host, p: int, e: ProbeEnd) => h == host && p == port && e == Accepted
  }

  function ClosedOn(host: Host): (Host, int, ProbeEnd) -> bool {
    (h: Host, p: int, e: ProbeEnd) => h == host && e == Refused
  }

  function FilteredOn(host: Host): (Host, int, ProbeEnd) -> bool {
    (h: Host, p: int, e: ProbeEnd) => h == host && (e == TimedOut || e == UnreachableOrReset)
  }

  function ObservedOn(host: Host): (Host, int, ProbeEnd) -> bool {
    (h: Host, p: int, e: ProbeEnd) =>
      h == host && (e == Accepted || e == Refused || e == TimedOut || e == UnreachableOrReset)
  }

  function SummariesIn(findings: seq<Finding>, host: Host): seq<HostSummary> {
    if findings == [] then [] else
    var last := findings[|findings| - 1];
    SummariesIn(findings[..|findings| - 1], host)
    + (if last.PortSummary? && last.host == host then [last.summary] else [])
  }

  predicate Summarises(s: HostSummary, probes: seq<(Host, int)>, ends: seq<ProbeEnd>, host: Host)
    requires |ends| == |probes|
  {
    && s.probed == ProbesThat(probes, ends, ObservedOn(host))
    && s.closedCount == ProbesThat(probes, ends, ClosedOn(host))
    && s.filteredCount == ProbesThat(probes, ends, FilteredOn(host))
    && IsSorted(s.openPorts)
  }

  /** An open port is reported once for each probe of it that was accepted, by a finding and in the summary of its
      host; a host with a probe that observed something has one summary, and the others have none. */
  ghost predicate Reports(findings: seq<Finding>, probes: seq<(Host, int)>, ends: seq<ProbeEnd>)
    requires |ends| == |probes|
  {
    && (forall host, port :: multiset(findings)[PortOpen(host, port)] == ProbesThat(probes, ends, OpenAt(host, port)))
    && (forall host :: ReportsHost(SummariesIn(findings, host), probes, ends, host))
  }

  ghost predicate ReportsHost(summaries: seq<HostSummary>, probes: seq<(Host, int)>, ends: seq<ProbeEnd>, host: Host)
    requires |ends| == |probes|
  {
    if ProbesThat(probes, ends, ObservedOn(host)) == 0 then summaries == []
    else
      && |summaries| == 1 && Summarises(summaries[0], probes, ends, host)
      && forall port :: multiset(summaries[0].openPorts)[port] == ProbesThat(probes, ends, OpenAt(host, port))
  }

  /** What one more observation adds to those of a host. */
  lemma OnCounts(observations: seq<Observation>, o: Observation, host: Host)
    ensures var before, after := On(observations, host), On(observations + [o], host);
            var on := o.host == host;
            && |after| - |before| == (if on then 1 else 0)
            && Count(after, InState(Closed)) - Count(before, InState(Closed))
               == (if on && o.state == Closed then 1 else 0)
            && Count(after, InState(Filtered)) - Count(before, InState(Filtered))
               == (if on && o.state == Filtered then 1 else 0)
            && OpenPorts(after) == OpenPorts(before) + (if on && o.state == Open then [o.port] else [])
  {
    OnAppend(observations, o, host);
    if o.host == host {
      CountAppend(On(observations, host), o, InState(Closed));
      CountAppend(On(observations, host), o, InState(Filtered));
      OpenPortsAppend(On(observations, host), o);
    } else {
      assert On(observations + [o], host) == On(observations, host);
    }
  }

  lemma {:induction false} ObservedCounts(probes: seq<(Host, int)>, ends: seq<ProbeEnd>, host: Host)
    requires |ends| == |probes|
    ensures var seen := On(Observed(probes, ends), host);
            && |seen| == ProbesThat(probes, ends, ObservedOn(host))
            && Count(seen, InState(Closed)) == ProbesThat(probes, ends, ClosedOn(host))
            && Count(seen, InState(Filtered)) == ProbesThat(probes, ends, FilteredOn(host))
  {
    if probes != [] {
      var last, end := probes[|probes| - 1], ends[|probes| - 1];
      var earlier := Observed(probes[..|probes| - 1], ends[..|probes| - 1]);
      ObservedCounts(probes[..|probes| - 1], ends[..|probes| - 1], host);
      if Counted(end) {
        OnCounts(earlier, Observation(last.0, last.1, StateOf(end)), host);
      } else {
        assert Observed(probes, ends) == earlier;
      }
    }
  }

  lemma {:induction false} OpenCounts(probes: seq<(Host, int)>, ends: seq<ProbeEnd>, host: Host, port: int)
    requires |ends| == |probes|
    ensures multiset(OpenPorts(On(Observed(probes, ends), host)))[port] == ProbesThat(probes, ends, OpenAt(host, port))
  {
    if probes != [] {
      var last, end := probes[|probes| - 1], ends[|probes| - 1];
      var earlier := Observed(probes[..|probes| - 1], ends[..|probes| - 1]);
      OpenCounts(probes[..|probes| - 1], ends[..|probes| - 1], host, port);
      if Counted(end) {
        OnCounts(earlier, Observation(last.0, last.1, StateOf(end)), host);
      } else {
        assert Observed(probes, ends) == earlier;
      }
    }
  }

  lemma OpenPortsAppend(observations: seq<Observation>, o: Observation)
    ensures OpenPorts(observations + [o]) == OpenPorts(observations) + if o.state.Open? then [o.port] else []
  {
    assert (observations + [o])[..|observations|] == observations;
  }

  lemma {:induction false} PortsAreFindings(findings: seq<Finding>, host: Host, port: int)
    ensures multiset(findings)[PortOpen(host, port)] == multiset(PortsIn(findings, host))[port]
  {
    if findings != [] {
      var init := findings[..|findings| - 1];
      PortsAreFindings(init, host, port);
      assert findings == init + [findings[|findings| - 1]];
    }
  }

  lemma {:induction false} SummariesInConcat(s: seq<Finding>, t: seq<Finding>, host: Host)
    ensures SummariesIn(s + t, host) == SummariesIn(s, host) + SummariesIn(t, host)
  {
    if t == [] {
      assert s + t == s;
    } else {
      var init := t[..|t| - 1];
      SummariesInConcat(s, init, host);
      assert (s + t)[..|s + t| - 1] == s + init;
    }
  }

  lemma {:induction false} NoSummaries(of: Host, ports: seq<int>, host: Host)
    ensures SummariesIn(OpenFindings(of, ports), host) == []
  {
    if ports != [] {
      NoSummaries(of, ports[..|ports| - 1], host);
      assert OpenFindings(of, ports)[..|ports| - 1] == OpenFindings(of, ports[..|ports| - 1]);
    }
  }

  lemma SummariesOfHost(of: Host, seen: seq<Observation>, host: Host)
    ensures SummariesIn(HostFindings(of, seen), host) == if of == host then [SummaryOf(seen)] else []
  {
    var summary := [PortSummary(of, SummaryOf(seen))];
    SummariesInConcat(OpenFindings(of, Sort(OpenPorts(seen))), summary, host);
    NoSummaries(of, Sort(OpenPorts(seen)), host);
    assert summary[..0] == [];
  }

  lemma {:induction false} SummariesInFindingsFor(observations: seq<Observation>, hosts: seq<Host>, host: Host)
    requires Distinct(hosts)
    ensures SummariesIn(FindingsFor(observations, hosts), host) ==
            if host in hosts then [SummaryOf(On(observations, host))] else []
  {
    if hosts != [] {
      var init, last := hosts[..|hosts| - 1], hosts[|hosts| - 1];
      SummariesInFindingsFor(observations, init, host);
      SummariesInConcat(FindingsFor(observations, init), HostFindings(last, On(observations, last)), host);
      SummariesOfHost(last, On(observations, last), host);
      assert host in hosts <==> host in init || host == last;
    }
  }

  lemma HostReported(probes: seq<(Host, int)>, ends: seq<ProbeEnd>, host: Host)
    requires |ends| == |probes|
    ensures var observations := Observed(probes, ends);
            ReportsHost(SummariesIn(FindingsFor(observations, HostsOf(observations)), host), probes, ends, host)
  {
    var observations := Observed(probes, ends);
    HostsAreDistinct(observations);
    SummariesInFindingsFor(observations, HostsOf(observations), host);
    ObservedCounts(probes, ends, host);
    SummaryAddsUp(On(observations, host));
    forall port
      ensures multiset(OpenPorts(On(observations, host)))[port] == ProbesThat(probes, ends, OpenAt(host, port))
    {
      OpenCounts(probes, ends, host, port);
    }
  }

  lemma FindingsReport(probes: seq<(Host, int)>, ends: seq<ProbeEnd>)
    requires |ends| == |probes|
    ensures Reports(FindingsFor(Observed(probes, ends), HostsOf(Observed(probes, ends))), probes, ends)
  {
    var observations := Observed(probes, ends);
    var findings := FindingsFor(observations, HostsOf(observations));
    forall host, port
      ensures multiset(findings)[PortOpen(host, port)] == ProbesThat(probes, ends, OpenAt(host, port))
    {
      PortsAreFindings(findings, host, port);
      OpenPortsRoundTrip(observations, host);
      SummaryAddsUp(On(observations, host));
      OpenCounts(probes, ends, host, port);
    }
    forall host
      ensures ReportsHost(SummariesIn(findings, host), probes, ends, host)
    {
      HostReported(probes, ends, host);
    }
  }

  /** The probes are all the pairs of an address and a port, the ports of an address together and in order. */
  lemma {:induction false} ProbesAreAllPairs(addresses: seq<Host>, ports: seq<int>, i: nat, j: nat)
    requires i < |addresses| && j < |ports|
    ensures |Probes(addresses, ports)| == |addresses| * |ports| && i * |ports| + j < |addresses| * |ports|
    ensures Probes(addresses, ports)[i * |ports| + j] == (addresses[i], ports[j])
  {
    var last := |addresses| - 1;
    ProbesLength(addresses, ports);
    ProbesLength(addresses[..last], ports);
    BelowProduct(i, j, |addresses|, |ports|);
    if i < last {
      ProbesAreAllPairs(addresses[..last], ports, i, j);
    }
  }

  lemma {:induction false} ProbesLength(addresses: seq<Host>, ports: seq<int>)
    ensures |Probes(addresses, ports)| == |addresses| * |ports|
  {
    if addresses != [] {
      ProbesLength(addresses[..|addresses| - 1], ports);
      assert |addresses| * |ports| == (|addresses| - 1) * |ports| + |ports|;
    }
  }

  lemma TimesSum(x: nat, y: nat, m: nat)
    ensures (x + y) * m == x * m + y * m && 0 <= y * m
  {
  }

  lemma BelowProduct(i: nat, j: nat, n: nat, m: nat)
    requires i < n && j < m
    ensures i * m + j < n * m
  {
    var more := n - 1 - i;
    assert n == i + 1 + more;
    TimesSum(i, 1 + more, m);
    TimesSum(1, more, m);
  }

  // ---- the module ----

  /** The module. None stands for an exception that ends it. A factory is given by how its probe ends. */
  method Run(addresses: seq<Host>, ports: seq<int>, ends: seq<ProbeEnd>) returns (r: Option<ModuleResult>)
    requires |ends| == |Probes(addresses, ports)|
    ensures var probes := Probes(addresses, ports);
            && (r == None <==> Raised in ends)
            && (r.Some? ==>
                 && r.value.findings == FindingsFor(Observed(probes, ends), HostsOf(Observed(probes, ends)))
                 && Reports(r.value.findings, probes, ends)
                 && (r.value.budgetReached <==> OutOfBudget in ends))
  {
    var probes := Probes(addresses, ports);
    var outcomes, waves := InBoundedWaves(ends, DEFAULT_WAVE_SIZE, (end: ProbeEnd) => end);
    assert outcomes == ends;
    var raised, observations, budgetReached := Collect(probes, outcomes);
    if raised {
      return None;
    }
    var findings := ToFindings(observations);
    FindingsReport(probes, ends);
    return Some(ModuleResult(findings, budgetReached));
  }

  /** The loop over the outcomes. */
  method Collect(probes: seq<(Host, int)>, outcomes: seq<ProbeEnd>)
    returns (raised: bool, observations: seq<Observation>, budgetReached: bool)
    requires |outcomes| == |probes|
    ensures raised <==> Raised in outcomes
    ensures !raised ==> observations == Observed(probes, outcomes)
    ensures !raised ==> (budgetReached <==> OutOfBudget in outcomes)
  {
    raised, observations, budgetReached := false, [], false;
    for i := 0 to |outcomes|
      invariant observations == Observed(probes[..i], outcomes[..i])
      invariant budgetReached <==> OutOfBudget in outcomes[..i]
      invariant Raised !in outcomes[..i]
    {
      assert probes[..i + 1][..i] == probes[..i];
      assert outcomes[..i + 1] == outcomes[..i] + [outcomes[i]] && outcomes[..i + 1][..i] == outcomes[..i];
      var outcome := outcomes[i];
      if outcome.OutOfBudget? {
        budgetReached := true;
      } else if outcome.Raised? {
        raised := true;
        return;
      } else if !outcome.NotStarted? {
        observations := observations + [Observation(probes[i].0, probes[i].1, StateOf(outcome))];
      }
    }
    assert probes[..|probes|] == probes && outcomes[..|outcomes|] == outcomes;
  }

  // ---- the report is complete and consistent ----

  lemma {:induction false} StatesPartition(observations: seq<Observation>)
    ensures |OpenPorts(observations)| + Count(observations, InState(Closed)) + Count(observations, InState(Filtered))
            == |observations|
  {
    if observations != [] {
      StatesPartition(observations[..|observations| - 1]);
    }
  }

  /** Every probed host gets a summary whose open, closed and filtered ports add up to the probed ones;
      its open ports are sorted and are exactly the ports that accepted, with their multiplicity. */
  lemma SummaryAddsUp(observations: seq<Observation>)
    ensures var s := SummaryOf(observations);
            && |s.openPorts| + s.closedCount + s.filteredCount == s.probed
            && IsSorted(s.openPorts) && multiset(s.openPorts) == multiset(OpenPorts(observations))
  {
    StatesPartition(observations);
    SortSorts(OpenPorts(observations));
    SortKeepsMembers(OpenPorts(observations));
  }

  predicate Distinct(hosts: seq<Host>) {
    forall i, j | 0 <= i < j < |hosts| :: hosts[i] != hosts[j]
  }

  lemma {:induction false} HostsAreDistinct(observations: seq<Observation>)
    ensures Distinct(HostsOf(observations))
    ensures forall h :: h in HostsOf(observations) <==> On(observations, h) != []
  {
    if observations != [] {
      HostsAreDistinct(observations[..|observations| - 1]);
    }
  }

  /** Probed ports summed over the summaries of a list of findings. */
  function ProbedTotal(findings: seq<Finding>): nat {
    Sum(findings, (f: Finding) => if f.PortSummary? then f.summary.probed else 0)
  }

  lemma {:induction false} SumConcat<T>(s: seq<T>, t: seq<T>, f: T -> nat)
    ensures Sum(s + t, f) == Sum(s, f) + Sum(t, f)
  {
    if t == [] {
      assert s + t == s;
    } else {
      SumConcat(s, t[..|t| - 1], f);
      assert (s + t)[..|s + t| - 1] == s + t[..|t| - 1];
    }
  }

  lemma {:induction false} SumZero<T>(s: seq<T>, f: T -> nat)
    requires forall i | 0 <= i < |s| :: f(s[i]) == 0
    ensures Sum(s, f) == 0
  {
    if s != [] {
      SumZero(s[..|s| - 1], f);
    }
  }

  function OnTotal(observations: seq<Observation>, hosts: seq<Host>): nat {
    if hosts == [] then 0
    else OnTotal(observations, hosts[..|hosts| - 1]) + |On(observations, hosts[|hosts| - 1])|
  }

  lemma {:induction false} ProbedIsOnTotal(observations: seq<Observation>, hosts: seq<Host>)
    ensures ProbedTotal(FindingsFor(observations, hosts)) == OnTotal(observations, hosts)
  {
    if hosts != [] {
      var init, last := hosts[..|hosts| - 1], hosts[|hosts| - 1];
      ProbedIsOnTotal(observations, init);
      var probed := (f: Finding) => if f.PortSummary? then f.summary.probed else 0;
      var seen := On(observations, last);
      var opens := OpenFindings(last, Sort(OpenPorts(seen)));
      SumConcat(FindingsFor(observations, init), HostFindings(last, seen), probed);
      SumConcat(opens, [PortSummary(last, SummaryOf(seen))], probed);
      SumZero(opens, probed);
      assert [PortSummary(last, SummaryOf(seen))][..0] == [];
    }
  }

  lemma {:induction false} OnTotalStep(observations: seq<Observation>, o: Observation, hosts: seq<Host>)
    requires Distinct(hosts)
    ensures OnTotal(observations + [o], hosts) == OnTotal(observations, hosts) + if o.host in hosts then 1 else 0
  {
    if hosts != [] {
      OnTotalStep(observations, o, hosts[..|hosts| - 1]);
      assert (observations + [o])[..|observations|] == observations;
      assert o.host in hosts <==> o.host in hosts[..|hosts| - 1] || o.host == hosts[|hosts| - 1];
    }
  }

  lemma {:induction false} OnTotalIsAll(observations: seq<Observation>)
    ensures OnTotal(observations, HostsOf(observations)) == |observations|
  {
    if observations != [] {
      var init, last := observations[..|observations| - 1], observations[|observations| - 1];
      assert observations == init + [last];
      OnTotalIsAll(init);
      HostsAreDistinct(observations);
      HostsAreDistinct(init);
      OnTotalStep(init, last, HostsOf(observations));
      if last.host !in HostsOf(init) {
        assert HostsOf(observations)[..|HostsOf(init)|] == HostsOf(init);
      }
    }
  }

  /** The probed ports of all summaries add up to the probes that got as far as a definite state. */
  lemma ProbedTotalIsObserved(probes: seq<(Host, int)>, ends: seq<ProbeEnd>)
    requires |ends| == |probes|
    ensures var observations := Observed(probes, ends);
            ProbedTotal(FindingsFor(observations, HostsOf(observations))) == Count(ends, Counted)
  {
    var observations := Observed(probes, ends);
    ProbedIsOnTotal(observations, HostsOf(observations));
    OnTotalIsAll(observations);
    ObservedCount(probes, ends);
  }

  lemma {:induction false} ObservedCount(probes: seq<(Host, int)>, ends: seq<ProbeEnd>)
    requires |ends| == |probes|
    ensures |Observed(probes, ends)| == Count(ends, Counted)
  {
    if probes != [] {
      ObservedCount(probes[..|probes| - 1], ends[..|probes| - 1]);
    }
  }

  // ---- round trip ----

  lemma {:induction false} PortsInConcat(s: seq<Finding>, t: seq<Finding>, host: Host)
    ensures PortsIn(s + t, host) == PortsIn(s, host) + PortsIn(t, host)
  {
    if t == [] {
      assert s + t == s;
    } else {
      var init, last := t[..|t| - 1], t[|t| - 1];
      PortsInConcat(s, init, host);
      assert t == init + [last] && s + t == s + init + [last];
    }
  }

  lemma {:induction false} PortsInOpenFindings(of: Host, ports: seq<int>, host: Host)
    ensures PortsIn(OpenFindings(of, ports), host) == if of == host then ports else []
  {
    if ports != [] {
      PortsInOpenFindings(of, ports[..|ports| - 1], host);
      assert OpenFindings(of, ports)[..|ports| - 1] == OpenFindings(of, ports[..|ports| - 1]);
    }
  }

  lemma {:induction false} PortsInFindingsFor(observations: seq<Observation>, hosts: seq<Host>, host: Host)
    requires Distinct(hosts)
    ensures PortsIn(FindingsFor(observations, hosts), host) ==
            if host in hosts then Sort(OpenPorts(On(observations, host))) else []
  {
    if hosts != [] {
      var init, last := hosts[..|hosts| - 1], hosts[|hosts| - 1];
      PortsInFindingsFor(observations, init, host);
      var seen := On(observations, last);
      var summary := [PortSummary(last, SummaryOf(seen))];
      PortsInConcat(FindingsFor(observations, init), HostFindings(last, seen), host);
      PortsInConcat(OpenFindings(last, Sort(OpenPorts(seen))), summary, host);
      PortsInOpenFindings(last, Sort(OpenPorts(seen)), host);
      assert summary[..0] == [];
      assert host in hosts <==> host in init || host == last;
    }
  }

  /** Reading the open ports back from the findings of a scan gives, per host, exactly the sorted ports
      that were observed open; hosts without an open port are absent. */
  lemma OpenPortsRoundTrip(observations: seq<Observation>, host: Host)
    ensures var read := PortsIn(FindingsFor(observations, HostsOf(observations)), host);
            && read == Sort(OpenPorts(On(observations, host)))
            && Sort(read) == read
  {
    HostsAreDistinct(observations);
    PortsInFindingsFor(observations, HostsOf(observations), host);
    SortSorts(OpenPorts(On(observations, host)));
    SortOfSorted(Sort(OpenPorts(On(observations, host))));
  }
}
