/** A port scan on the governor: the connects it reports are the connects the governor has counted. */
module PortScanCount {
  import opened Counting
  import opened Governor
  import opened ConnectProtocol
  import opened ConnectOutcomes
  import P = PortScan

  /** How the probe of a task ends. A task that has not begun was skipped because of a cancel. */
  function EndOf(t: Task): P.ProbeEnd {
    match t.phase
    case Idle => P.NotStarted
    case Finished(OverBudget) => P.OutOfBudget
    case Finished(Opened) => P.Accepted
    case Finished(Errored(RefusedByHost)) => P.Refused
    case Finished(Errored(TimedOut)) => P.TimedOut
    case Finished(Errored(HostError)) => P.UnreachableOrReset
    case _ => P.Raised
  }

  /** The end of a probe that does not raise tells how its connect went. */
  lemma EndsTellHowItWent(init: State, steps: seq<Step>, i: nat)
    requires Initial(init) && After(init, steps).Some? && i < |init.tasks|
    ensures i < |After(init, steps).value.tasks|
    ensures var end, went := EndOf(After(init, steps).value.tasks[i]), WentBy(steps, i);
            end != P.Raised ==>
              && (end == P.Accepted <==> went == Succeeded)
              && (end == P.Refused <==> went == Failed(RefusedByHost))
              && (end == P.TimedOut <==> went == Failed(TimedOut))
              && (end == P.UnreachableOrReset <==> went == Failed(HostError))
              && (end == P.NotStarted <==> After(init, steps).value.tasks[i].phase.Idle?)
  {
    TasksEndAsTheyWent(init, steps, i);
  }

  function EndsOf(tasks: seq<Task>): seq<P.ProbeEnd> {
    seq(|tasks|, i requires 0 <= i < |tasks| => EndOf(tasks[i]))
  }

  /** The tasks of the scan are those from `lo` on, one for each probe in order, and have not begun. */
  predicate AreTasksOf(s: State, lo: nat, probes: seq<(Host, int)>) {
    && lo + |probes| <= |s.tasks|
    && forall j | 0 <= j < |probes| ::
         s.tasks[lo + j].phase.Idle? && (s.tasks[lo + j].host, s.tasks[lo + j].port) == probes[j]
  }

  /** No other task connects between the two states. */
  predicate OthersRest(from: State, to: State, lo: nat, hi: nat)
    requires lo <= hi <= |from.tasks| == |to.tasks|
  {
    forall i | 0 <= i < |to.tasks| && !(lo <= i < hi) :: from.tasks[i].phase.Finished? || to.tasks[i].phase.Idle?
  }

  lemma OthersCountAlike(from: State, to: State, lo: nat, hi: nat)
    requires SameTasks(from, to) && lo <= hi <= |from.tasks| && OthersRest(from, to, lo, hi)
    ensures Count(from.tasks[..lo], WasCounted) == Count(to.tasks[..lo], WasCounted)
    ensures Count(from.tasks[hi..], WasCounted) == Count(to.tasks[hi..], WasCounted)
  {
    assert forall i | 0 <= i < |to.tasks| && !(lo <= i < hi) :: from.tasks[i] == to.tasks[i];
    assert from.tasks[..lo] == to.tasks[..lo] && from.tasks[hi..] == to.tasks[hi..];
  }

  /** A port scan that starts at `from` and has returned at `to`. */
  predicate Scans(from: State, to: State, lo: nat, probes: seq<(Host, int)>) {
    && AreTasksOf(from, lo, probes)
    && |to.tasks| == |from.tasks| && OthersRest(from, to, lo, lo + |probes|)
    && P.Raised !in EndsOf(to.tasks[lo..lo + |probes|])
  }

  /** What its findings report as probed, all hosts together. */
  function Reported(to: State, lo: nat, probes: seq<(Host, int)>): nat
    requires lo + |probes| <= |to.tasks|
  {
    var observations := P.Observed(probes, EndsOf(to.tasks[lo..lo + |probes|]));
    P.ProbedTotal(P.FindingsFor(observations, P.HostsOf(observations)))
  }

  lemma NoneCountedYet(from: State, lo: nat, probes: seq<(Host, int)>)
    requires AreTasksOf(from, lo, probes)
    ensures Count(from.tasks[lo..lo + |probes|], WasCounted) == 0
  {
    var mine := from.tasks[lo..lo + |probes|];
    forall i | 0 <= i < |mine|
      ensures !WasCounted(mine[i])
    {
      assert mine[i] == from.tasks[lo + i] && (mine[i].host, mine[i].port) == probes[i];
    }
    CountNone(mine, WasCounted);
  }

  lemma RiseBetween(from: State, to: State, lo: nat, probes: seq<(Host, int)>)
    requires Scans(from, to, lo, probes) && SameTasks(from, to)
    ensures Count(to.tasks, WasCounted) - Count(from.tasks, WasCounted)
         == Count(to.tasks[lo..lo + |probes|], WasCounted)
  {
    OthersCountAlike(from, to, lo, lo + |probes|);
    NoneCountedYet(from, lo, probes);
    RiseInTheMiddle(from.tasks, to.tasks, lo, lo + |probes|);
  }

  lemma RiseInTheMiddle(from: seq<Task>, to: seq<Task>, lo: nat, hi: nat)
    requires lo <= hi <= |from| == |to|
    requires Count(from[..lo], WasCounted) == Count(to[..lo], WasCounted)
    requires Count(from[hi..], WasCounted) == Count(to[hi..], WasCounted)
    ensures Count(to, WasCounted) - Count(from, WasCounted)
         == Count(to[lo..hi], WasCounted) - Count(from[lo..hi], WasCounted)
  {
    CountInThree(from, lo, hi, WasCounted);
    CountInThree(to, lo, hi, WasCounted);
  }

  /** For every port scan that returns, under every interleaving of its probes and from every reachable state
      of the governor: the probed ports of its findings add up to the rise in probes made. */
  lemma ProbedTotalIsTheRiseInProbesMade(init: State, earlier: seq<Step>, steps: seq<Step>, lo: nat,
                                         probes: seq<(Host, int)>)
    requires Initial(init) && After(init, earlier).Some? && After(After(init, earlier).value, steps).Some?
    requires Scans(After(init, earlier).value, After(After(init, earlier).value, steps).value, lo, probes)
    ensures var from := After(init, earlier).value;
            var to := After(from, steps).value;
            Reported(to, lo, probes) == to.gov.scanCount - from.gov.scanCount
  {
    var from := After(init, earlier).value;
    var to := After(from, steps).value;
    ScanCountIsCounted(init, earlier);
    AfterConcat(init, earlier, steps);
    ScanCountIsCounted(init, earlier + steps);
    RunsKeepTasks(from, steps);
    RiseBetween(from, to, lo, probes);
    ObservedIsCounted(to.tasks[lo..lo + |probes|]);
    P.ProbedTotalIsObserved(probes, EndsOf(to.tasks[lo..lo + |probes|]));
  }

  lemma ScanCountIsCounted(init: State, steps: seq<Step>)
    requires Initial(init) && After(init, steps).Some?
    ensures After(init, steps).value.gov.scanCount == Count(After(init, steps).value.tasks, WasCounted)
  {
    OutcomesAlwaysKept(init, steps);
  }

  /** Of the probes that did not raise, exactly those that observed a port were counted. */
  lemma ObservedIsCounted(tasks: seq<Task>)
    requires P.Raised !in EndsOf(tasks)
    ensures Count(EndsOf(tasks), P.Counted) == Count(tasks, WasCounted)
  {
    forall i | 0 <= i < |tasks|
      ensures P.Counted(EndsOf(tasks)[i]) == WasCounted(tasks[i])
    {
      assert EndsOf(tasks)[i] == EndOf(tasks[i]);
      assert EndsOf(tasks)[i] in EndsOf(tasks);
    }
    CountAlike(EndsOf(tasks), P.Counted, tasks, WasCounted);
  }
}
