/** The overshoot bound of the budgets is attained, for every wave size and all limits: the check before the
    awaits is not the charge after them. */
module ConnectOvershoot {
  import opened Wrappers
  import opened Cidr
  import opened Counting
  import opened Waves
  import opened FanOuts
  import opened TokenBucket
  import opened Governor
  import opened ConnectProtocol
  import opened ConnectBudget
  import opened ConnectOutcomes
  import opened ConnectRate
  import opened ConnectWaves

  // ---- fan-outs whose last wave starts one short of a budget ----

  /** The last wave is full, and the waves before it use up the budget but for one. */
  ghost predicate EndsAtBudget(init: State, plan: Plan, width: nat, budget: int) {
    && OneEach(init, plan, width) && 1 <= budget
    && Sizes(plan) != [] && Sizes(plan)[|Sizes(plan)| - 1] == width
    && |init.tasks| == budget - 1 + width
  }

  lemma StartsWithinBudget(init: State, plan: Plan, width: nat, budget: int, j: nat)
    requires EndsAtBudget(init, plan, width, budget) && j < |init.tasks|
    ensures StartOf(Sizes(plan), j) <= j && StartOf(Sizes(plan), j) < budget
  {
    SizesAreBounded(plan.cuts, width);
    StartBounds(Sizes(plan), j, width);
    LastStart(Sizes(plan), j);
  }

  lemma {:induction false} ConnectsOnGrows(tasks: seq<Task>, d: nat, e: nat, host: Host)
    requires d <= e <= |tasks|
    ensures ConnectsOn(tasks, d, host) <= ConnectsOn(tasks, e, host)
  {
    if d < e {
      ConnectsOnGrows(tasks, d, e - 1, host);
      ConnectsNext(tasks, e - 1, host);
    }
  }

  // ---- the scan budget ----

  /** On no host are there more tasks than its budget. */
  ghost predicate SpreadOut(init: State) {
    forall host :: ConnectsOn(init.tasks, |init.tasks|, host) <= init.gov.limits.perHostBudget
  }

  lemma SpreadHasRoom(init: State, plan: Plan, width: nat)
    requires EndsAtBudget(init, plan, width, init.gov.limits.perScanBudget) && SpreadOut(init)
    ensures RoomForAll(init, plan)
  {
    forall j: nat | j < |init.tasks|
      ensures HasRoom(init, plan, j)
    {
      var host, start := init.tasks[j].host, StartOf(Sizes(plan), j);
      StartsWithinBudget(init, plan, width, init.gov.limits.perScanBudget, j);
      ConnectsOnGrows(init.tasks, start, j, host);
      ConnectsNext(init.tasks, j, host);
      ConnectsOnGrows(init.tasks, j + 1, |init.tasks|, host);
    }
  }

  lemma ScanOvershoot(init: State, plan: Plan, width: nat) returns (steps: seq<Step>)
    requires EndsAtBudget(init, plan, width, init.gov.limits.perScanBudget) && SpreadOut(init)
    ensures WaveRun(init, steps, plan, width)
    ensures After(init, steps).value.gov.scanCount == init.gov.limits.perScanBudget + width - 1
  {
    SpreadHasRoom(init, plan, width);
    var s: State;
    steps, s := WavesGoThrough(init, plan, width);
  }

  // ---- the host budget ----

  /** All tasks connect to one host, whose budget is no higher than that of the scan. */
  predicate OneHost(init: State, host: Host) {
    && init.gov.limits.perHostBudget <= init.gov.limits.perScanBudget
    && forall i | 0 <= i < |init.tasks| :: init.tasks[i].host == host
  }

  lemma {:induction false} OneHostConnects(init: State, host: Host, d: nat)
    requires OneHost(init, host) && d <= |init.tasks|
    ensures ConnectsOn(init.tasks, d, host) == d
  {
    if d > 0 {
      OneHostConnects(init, host, d - 1);
      ConnectsNext(init.tasks, d - 1, host);
    }
  }

  lemma OneHostHasRoom(init: State, plan: Plan, width: nat, host: Host)
    requires EndsAtBudget(init, plan, width, init.gov.limits.perHostBudget) && OneHost(init, host)
    ensures RoomForAll(init, plan)
  {
    forall j: nat | j < |init.tasks|
      ensures HasRoom(init, plan, j)
    {
      StartsWithinBudget(init, plan, width, init.gov.limits.perHostBudget, j);
      OneHostConnects(init, host, StartOf(Sizes(plan), j));
    }
  }

  lemma HostOvershoot(init: State, plan: Plan, width: nat, host: Host) returns (steps: seq<Step>)
    requires EndsAtBudget(init, plan, width, init.gov.limits.perHostBudget) && OneHost(init, host)
    ensures WaveRun(init, steps, plan, width)
    ensures CountOn(After(init, steps).value.gov, host) == init.gov.limits.perHostBudget + width - 1
  {
    OneHostHasRoom(init, plan, width, host);
    var s: State;
    steps, s := WavesGoThrough(init, plan, width);
    OneHostConnects(init, host, |init.tasks|);
    assert CountOn(s.gov, host) == ConnectsOn(init.tasks, |init.tasks|, host);
  }

  // ---- such fan-outs exist ----

  function FullWaves(n: nat, width: nat): seq<nat> {
    seq(n, _ => width)
  }

  /** A first fan-out with what is left over, and a second one in full waves. */
  function Cuts(budget: nat, width: nat): seq<seq<nat>>
    requires 1 <= budget && 1 <= width
  {
    var rest, whole := (budget - 1) % width, (budget - 1) / width;
    (if rest == 0 then [] else [[rest]]) + [FullWaves(whole + 1, width)]
  }

  function TwoFanOuts(budget: nat, width: nat): Plan
    requires 1 <= budget && 1 <= width
  {
    Plan(seq(budget - 1 + width, i => i), Cuts(budget, width))
  }

  lemma {:induction false} FullTotal(n: nat, width: nat)
    ensures Total(FullWaves(n, width)) == n * width
  {
    if n > 0 {
      FullTotal(n - 1, width);
      assert FullWaves(n, width)[1..] == FullWaves(n - 1, width);
      assert n * width == (n - 1) * width + width;
    }
  }

  lemma FlattenOne<T>(a: seq<T>)
    ensures Flatten([a]) == a
  {
    assert [a][..0] == [];
    assert [] + a == a;
  }

  lemma FlattenTwo<T>(a: seq<T>, b: seq<T>)
    ensures Flatten([a, b]) == a + b
  {
    assert [a, b][..1] == [a];
    FlattenOne(a);
  }

  lemma SizesOfTwo(budget: nat, width: nat)
    requires 1 <= budget && 1 <= width
    ensures var rest, whole := (budget - 1) % width, (budget - 1) / width;
            Sizes(TwoFanOuts(budget, width)) == (if rest == 0 then [] else [rest]) + FullWaves(whole + 1, width)
  {
    var rest, whole := (budget - 1) % width, (budget - 1) / width;
    var full := FullWaves(whole + 1, width);
    if rest == 0 {
      FlattenOne(full);
      assert [] + [full] == [full] && [] + full == full;
    } else {
      var first: seq<nat> := [rest];
      FlattenTwo(first, full);
      assert Cuts(budget, width) == [first, full];
    }
  }

  lemma TwoFanOutsFit(budget: nat, width: nat)
    requires 1 <= budget && 1 <= width
    ensures var plan := TwoFanOuts(budget, width);
            && Total(Sizes(plan)) == budget - 1 + width
            && Fits(plan, budget - 1 + width, width)
            && Sizes(plan) != [] && Sizes(plan)[|Sizes(plan)| - 1] == width
  {
    var plan := TwoFanOuts(budget, width);
    var rest, whole := (budget - 1) % width, (budget - 1) / width;
    var full := FullWaves(whole + 1, width);
    SizesOfTwo(budget, width);
    FullTotal(whole + 1, width);
    assert (whole + 1) * width == whole * width + width;
    assert budget - 1 == whole * width + rest;
    if rest > 0 {
      assert ([rest] + full)[1..] == full;
      assert IsCut([rest], width);
    } else {
      assert [] + full == full;
    }
    assert IsCut(full, width);
    forall f | 0 <= f < |plan.cuts|
      ensures CutWithin(plan.cuts[f], width)
    {
      assert plan.cuts[f] == full || plan.cuts[f] == [rest];
    }
  }

  /** A fresh scan; task `i` connects to `hosts(i)`. */
  function Scan(l: Limits, n: nat, hosts: nat -> Host): State {
    State(0.0, Fresh(l), Bucket(l.connectionsPerSecond, l.connectionsPerSecond, 0.0),
          seq(n, i requires 0 <= i => Task(hosts(i), 80, None, Idle)), [], [], [], 0, [])
  }

  lemma ScanEndsAtBudget(l: Limits, budget: nat, width: nat, hosts: nat -> Host)
    requires ValidatedAgainst(l, HARD_CEILING) && 1.0 <= l.connectionsPerSecond && 1 <= budget && 1 <= width
    ensures EndsAtBudget(Scan(l, budget - 1 + width, hosts), TwoFanOuts(budget, width), width, budget)
  {
    TwoFanOutsFit(budget, width);
    assert Initial(Scan(l, budget - 1 + width, hosts));
  }

  /** Task `i` has the `i`-th host to itself. */
  function OwnHost(i: nat): Host {
    Address(V6, i)
  }

  lemma {:induction false} OwnHostsConnectOnce(init: State, host: Host, d: nat)
    requires d <= |init.tasks| && forall i: nat | i < |init.tasks| :: init.tasks[i].host == OwnHost(i)
    ensures ConnectsOn(init.tasks, d, host) <= if host.value < d then 1 else 0
  {
    if d > 0 {
      OwnHostsConnectOnce(init, host, d - 1);
      ConnectsNext(init.tasks, d - 1, host);
    }
  }

  // ---- for which limits the bounds are attained ----

  /** A run of fan-outs with waves of at most this width, of some scan with these limits, that passes the scan
      budget by width - 1, with no connect refused by the guard. */
  ghost predicate PassesScanBudget(l: Limits, width: nat) {
    exists init, steps, plan | IsScanOf(init, l) && WaveRun(init, steps, plan, width) ::
      After(init, steps).value.gov.scanCount == l.perScanBudget + width - 1
  }

  ghost predicate PassesHostBudget(l: Limits, width: nat) {
    exists init, steps, plan | IsScanOf(init, l) && WaveRun(init, steps, plan, width) ::
      PassesOnSomeHost(After(init, steps).value.gov, width)
  }

  ghost predicate PassesOnSomeHost(g: Gov, width: nat) {
    exists host :: CountOn(g, host) == g.limits.perHostBudget + width - 1
  }

  ghost predicate IsScanOf(init: State, l: Limits) {
    && Initial(init) && init.gov.limits == l
    && forall i | 0 <= i < |init.tasks| :: init.tasks[i].refusal == None
  }

  /** For all limits that pass the ceiling and every wave size, the scan budget is passed by the wave size less
      one in some run, exactly if the rate is at least 1; below that nothing connects. */
  lemma ScanBudgetIsPassedExactly(l: Limits, width: nat)
    requires ValidatedAgainst(l, HARD_CEILING) && 1 <= width
    ensures PassesScanBudget(l, width) <==> 1.0 <= l.connectionsPerSecond
  {
    if 1.0 <= l.connectionsPerSecond {
      var init, plan := Scan(l, l.perScanBudget - 1 + width, OwnHost), TwoFanOuts(l.perScanBudget, width);
      ScanEndsAtBudget(l, l.perScanBudget, width, OwnHost);
      forall host
        ensures ConnectsOn(init.tasks, |init.tasks|, host) <= l.perHostBudget
      {
        OwnHostsConnectOnce(init, host, |init.tasks|);
      }
      var steps := ScanOvershoot(init, plan, width);
      assert IsScanOf(init, l);
      assert PassesScanBudget(l, width);
    } else if PassesScanBudget(l, width) {
      var init, steps, plan :| IsScanOf(init, l) && WaveRun(init, steps, plan, width)
                               && After(init, steps).value.gov.scanCount == l.perScanBudget + width - 1;
      SlowScanCountsNothing(init, steps);
    }
  }

  /** And some host budget is passed by as much exactly if besides the host budget is no higher than that of
      the scan, as it is in all shipped profiles. */
  lemma HostBudgetIsPassedExactly(l: Limits, width: nat)
    requires ValidatedAgainst(l, HARD_CEILING) && 1 <= width
    ensures PassesHostBudget(l, width) <==> 1.0 <= l.connectionsPerSecond && l.perHostBudget <= l.perScanBudget
  {
    if 1.0 <= l.connectionsPerSecond && l.perHostBudget <= l.perScanBudget {
      var host := OwnHost(0);
      var init := Scan(l, l.perHostBudget - 1 + width, (i: nat) => host);
      ScanEndsAtBudget(l, l.perHostBudget, width, (i: nat) => host);
      var steps := HostOvershoot(init, TwoFanOuts(l.perHostBudget, width), width, host);
      LimitsStay(init, steps);
      assert IsScanOf(init, l);
      assert PassesOnSomeHost(After(init, steps).value.gov, width);
      assert PassesHostBudget(l, width);
    } else if PassesHostBudget(l, width) {
      var init, steps, plan :| IsScanOf(init, l) && WaveRun(init, steps, plan, width)
                               && PassesOnSomeHost(After(init, steps).value.gov, width);
      LimitsStay(init, steps);
      var g := After(init, steps).value.gov;
      var host :| CountOn(g, host) == g.limits.perHostBudget + width - 1;
      WavesBoundOvershoot(init, steps, plan, width);
      HostCountIsPartOfScanCount(init, steps, host);
      if l.connectionsPerSecond < 1.0 {
        SlowScanCountsNothing(init, steps);
      }
    }
  }

  lemma LimitsStay(init: State, steps: seq<Step>)
    requires Initial(init) && After(init, steps).Some?
    ensures After(init, steps).value.gov.limits == init.gov.limits
  {
    PermitsAlwaysConserved(init, steps);
  }

  /** So in every shipped profile both budgets can be passed by the wave size less one. */
  lemma ShippedProfilesPassTheirBudgets(name: string, width: nat)
    requires name in INTENSITY_PROFILES && 1 <= width
    ensures PassesScanBudget(INTENSITY_PROFILES[name], width) && PassesHostBudget(INTENSITY_PROFILES[name], width)
  {
    ScanBudgetIsPassedExactly(INTENSITY_PROFILES[name], width);
    HostBudgetIsPassedExactly(INTENSITY_PROFILES[name], width);
  }

  lemma HostCountIsPartOfScanCount(init: State, steps: seq<Step>, host: Host)
    requires Initial(init) && After(init, steps).Some?
    ensures CountOn(After(init, steps).value.gov, host) <= After(init, steps).value.gov.scanCount
  {
    OutcomesAlwaysKept(init, steps);
    var s := After(init, steps).value;
    assert CountOn(s.gov, host) == Count(s.tasks, WasCountedOn(host));
    CountFewer(s.tasks, WasCountedOn(host), WasCounted);
  }

  lemma {:induction false} SlowScanCountsNothing(init: State, steps: seq<Step>)
    requires Initial(init) && init.gov.limits.connectionsPerSecond < 1.0 && After(init, steps).Some?
    ensures After(init, steps).value.gov.scanCount == 0
  {
    StartsAreCounted(init, steps);
    SlowRateNeverConnects(init, steps);
  }

  lemma {:induction false} StartsAreCounted(init: State, steps: seq<Step>)
    requires Initial(init) && After(init, steps).Some?
    ensures After(init, steps).value.gov.scanCount == |After(init, steps).value.starts|
  {
    if steps != [] {
      StartsAreCounted(init, steps[..|steps| - 1]);
    }
  }
}
