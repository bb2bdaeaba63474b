/** The shipped intensity profiles in numbers: what a scan with the default wave size can come to. */
module ConnectNumbers {
  import opened Wrappers
  import opened Counting
  import opened Waves
  import opened Governor
  import opened ConnectProtocol
  import opened ConnectBudget
  import opened ConnectOvershoot

  /** So many permits there are in all, free or held, and on each host; so fast is the bucket filled. */
  ghost predicate HasPermits(s: State, global: int, perHost: int, rate: real, timeout: real) {
    && s.gov.globalFree + Count(s.tasks, HoldsGlobal) == global
    && s.bucket.rate == rate && s.gov.limits.connectTimeout == timeout
    && forall host :: FreeOn(s.gov, host) + Count(s.tasks, HoldsOn(host)) == perHost
  }

  /** 20, 60 and 150 connects at a time, 4, 10 and 16 of them to one host, 5, 15 and 30 tokens a
      second, and 3, 3 and 4 seconds for a connect. */
  lemma ShippedPermits(name: string, init: State, steps: seq<Step>)
    requires name in INTENSITY_PROFILES && Initial(init) && init.gov.limits == INTENSITY_PROFILES[name]
    requires After(init, steps).Some?
    ensures match name
            case "polite" => HasPermits(After(init, steps).value, 20, 4, 5.0, 3.0)
            case "normal" => HasPermits(After(init, steps).value, 60, 10, 15.0, 3.0)
            case _ => name == "thorough" && HasPermits(After(init, steps).value, 150, 16, 30.0, 4.0)
  {
    PermitsAlwaysConserved(init, steps);
    var s := After(init, steps).value;
    forall host
      ensures FreeOn(s.gov, host) + Count(s.tasks, HoldsOn(host)) == s.gov.limits.perHostConcurrency
    {
      assert HostConserved(s, host);
    }
    assert name == "polite" || name == "normal" || name == "thorough";
  }

  /** The most that any scan with these limits counts, in all and on one host. */
  ghost predicate CountsAtMost(l: Limits, scan: int, perHost: int) {
    forall init, steps, plan | IsScanOf(init, l) && WaveRun(init, steps, plan, DEFAULT_WAVE_SIZE) ::
      var g := After(init, steps).value.gov;
      g.scanCount <= scan && forall host :: CountOn(g, host) <= perHost
  }

  ghost predicate SomeScanCounts(l: Limits, scan: int) {
    exists init, steps, plan | IsScanOf(init, l) && WaveRun(init, steps, plan, DEFAULT_WAVE_SIZE) ::
      After(init, steps).value.gov.scanCount == scan
  }

  ghost predicate SomeHostCounts(l: Limits, perHost: int) {
    exists init, steps, plan | IsScanOf(init, l) && WaveRun(init, steps, plan, DEFAULT_WAVE_SIZE) ::
      exists host :: CountOn(After(init, steps).value.gov, host) == perHost
  }

  ghost predicate LargestCounts(l: Limits, scan: int, perHost: int) {
    CountsAtMost(l, scan, perHost) && SomeScanCounts(l, scan) && SomeHostCounts(l, perHost)
  }

  lemma CountsOfWaves(l: Limits)
    requires ValidatedAgainst(l, HARD_CEILING) && 1.0 <= l.connectionsPerSecond && l.perHostBudget <= l.perScanBudget
    ensures LargestCounts(l, l.perScanBudget + 255, l.perHostBudget + 255)
  {
    forall init, steps, plan | IsScanOf(init, l) && WaveRun(init, steps, plan, DEFAULT_WAVE_SIZE)
      ensures var g := After(init, steps).value.gov;
              g.scanCount <= l.perScanBudget + 255 && forall host :: CountOn(g, host) <= l.perHostBudget + 255
    {
      WavesBoundOvershoot(init, steps, plan, DEFAULT_WAVE_SIZE);
    }
    ScanBudgetIsPassedExactly(l, DEFAULT_WAVE_SIZE);
    HostBudgetIsPassedExactly(l, DEFAULT_WAVE_SIZE);
    SomeHostPasses(l);
  }

  lemma SomeHostPasses(l: Limits)
    requires PassesHostBudget(l, DEFAULT_WAVE_SIZE)
    ensures SomeHostCounts(l, l.perHostBudget + 255)
  {
    var init, steps, plan :| IsScanOf(init, l) && WaveRun(init, steps, plan, DEFAULT_WAVE_SIZE)
                             && PassesOnSomeHost(After(init, steps).value.gov, DEFAULT_WAVE_SIZE);
    LimitsStay(init, steps);
    var host :| CountOn(After(init, steps).value.gov, host) == l.perHostBudget + 255;
  }

  /** With waves of 256, the most a scan counts is exactly 2255, 3255 and 5255, and on one host 455, 555 and 755. */
  lemma ShippedCounts(name: string)
    requires name in INTENSITY_PROFILES
    ensures match name
            case "polite" => LargestCounts(INTENSITY_PROFILES[name], 2255, 455)
            case "normal" => LargestCounts(INTENSITY_PROFILES[name], 3255, 555)
            case _ => name == "thorough" && LargestCounts(INTENSITY_PROFILES[name], 5255, 755)
  {
    assert name == "polite" || name == "normal" || name == "thorough";
    CountsOfWaves(INTENSITY_PROFILES[name]);
  }
}
