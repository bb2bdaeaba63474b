/** The intensity governor: hard ceilings, budgets, per-host backoff and the two kinds of permit. Each
    method is the code between two awaits. */
module Governor {
  import opened Wrappers
  import Cidr
  import opened TokenBucket

  type Host = Cidr.Address

  datatype Limits = Limits(
    globalConcurrency: int,
    perHostConcurrency: int,
    connectionsPerSecond: real,
    connectTimeout: real,
    perHostBudget: int,
    perScanBudget: int)

  const HARD_CEILING := Limits(200, 20, 50.0, 5.0, 500, 5000)

  const INTENSITY_PROFILES: map<string, Limits> := map[
    "polite" := Limits(20, 4, 5.0, 3.0, 200, 2000),
    "normal" := Limits(60, 10, 15.0, 3.0, 300, 3000),
    "thorough" := Limits(150, 16, 30.0, 4.0, 500, 5000)
  ]

  predicate Between(value: int, ceiling: int) {
    0 < value <= ceiling
  }

  /** `validate_against`: every field is positive and no higher than the ceiling's. */
  predicate ValidatedAgainst(l: Limits, ceiling: Limits) {
    && Between(l.globalConcurrency, ceiling.globalConcurrency)
    && Between(l.perHostConcurrency, ceiling.perHostConcurrency)
    && 0.0 < l.connectionsPerSecond <= ceiling.connectionsPerSecond
    && 0.0 < l.connectTimeout <= ceiling.connectTimeout
    && Between(l.perHostBudget, ceiling.perHostBudget)
    && Between(l.perScanBudget, ceiling.perScanBudget)
  }

  const MAX_BACKOFF_SECONDS := 2.0
  const INITIAL_BACKOFF_SECONDS := 0.05

  datatype BudgetError = ScanBudget(limit: int) | HostBudget(host: Host, limit: int)
  datatype ConfigError = UnknownProfile | AboveCeiling

  /** The counters, permits and backoff of a governor; the token bucket is kept apart. A host without an
      entry has all its permits, no connection and no backoff. */
  datatype Gov = Gov(
    limits: Limits,
    globalFree: int,
    hostFree: map<Host, int>,
    hostCounts: map<Host, nat>,
    scanCount: nat,
    backoff: map<Host, real>)

  function Fresh(l: Limits): Gov {
    Gov(l, l.globalConcurrency, map[], map[], 0, map[])
  }

  function FreeOn(g: Gov, host: Host): int {
    if host in g.hostFree then g.hostFree[host] else g.limits.perHostConcurrency
  }

  function CountOn(g: Gov, host: Host): nat {
    if host in g.hostCounts then g.hostCounts[host] else 0
  }

  function BackoffOf(g: Gov, host: Host): real {
    if host in g.backoff then g.backoff[host] else 0.0
  }

  function BudgetCheck(g: Gov, host: Host): Option<BudgetError> {
    if g.scanCount >= g.limits.perScanBudget then Some(ScanBudget(g.limits.perScanBudget))
    else if CountOn(g, host) >= g.limits.perHostBudget then Some(HostBudget(host, g.limits.perHostBudget))
    else None
  }

  function WithGlobal(g: Gov, change: int): Gov {
    g.(globalFree := g.globalFree + change)
  }

  function HostTaken(g: Gov, host: Host): Gov {
    g.(hostFree := g.hostFree[host := FreeOn(g, host) - 1],
       scanCount := g.scanCount + 1,
       hostCounts := g.hostCounts[host := CountOn(g, host) + 1])
  }

  function Released(g: Gov, host: Host): Gov {
    g.(hostFree := g.hostFree[host := FreeOn(g, host) + 1], globalFree := g.globalFree + 1)
  }

  function NextBackoff(current: real): real {
    Min(MAX_BACKOFF_SECONDS, if current != 0.0 then current * 2.0 else INITIAL_BACKOFF_SECONDS)
  }

  function ErrorReported(g: Gov, host: Host): Gov {
    g.(backoff := g.backoff[host := NextBackoff(BackoffOf(g, host))])
  }

  function SuccessReported(g: Gov, host: Host): Gov {
    g.(backoff := g.backoff - {host})
  }

  class IntensityGovernor {
    const limits: Limits
    const bucket: TokenBucket
    var globalFree: int
    var hostFree: map<Host, int>
    var hostCounts: map<Host, nat>
    var scanCount: nat
    var backoff: map<Host, real>

    constructor (limits: Limits, now: real)
      ensures View() == Fresh(limits) && fresh(bucket)
      ensures bucket.View() == Bucket(limits.connectionsPerSecond, limits.connectionsPerSecond, now)
    {
      this.limits := limits;
      bucket := new TokenBucket(limits.connectionsPerSecond, now);
      globalFree, hostFree, hostCounts, scanCount, backoff := limits.globalConcurrency, map[], map[], 0, map[];
    }

    /** A governor exists only for a known profile whose limits pass the hard ceiling. */
    static method Create(profile: string, catalog: map<string, Limits>, now: real)
      returns (r: Result<IntensityGovernor, ConfigError>)
      ensures r.Ok? ==> profile in catalog && ValidatedAgainst(catalog[profile], HARD_CEILING)
      ensures r.Ok? ==> fresh(r.value) && r.value.View() == Fresh(catalog[profile])
      ensures r.Err? ==> r.error == if profile in catalog then AboveCeiling else UnknownProfile
      ensures r.Err? && profile in catalog ==> !ValidatedAgainst(catalog[profile], HARD_CEILING)
    {
      if profile !in catalog {
        return Err(UnknownProfile);
      }
      if !ValidatedAgainst(catalog[profile], HARD_CEILING) {
        return Err(AboveCeiling);
      }
      var governor := new IntensityGovernor(catalog[profile], now);
      return Ok(governor);
    }

    function View(): Gov
      reads this
    {
      Gov(limits, globalFree, hostFree, hostCounts, scanCount, backoff)
    }

    /** The start of `_acquire`: budgets are checked here, before any await. */
    method CheckBudgets(host: Host) returns (r: Result<real, BudgetError>)
      ensures r.Err? <==> BudgetCheck(View(), host).Some?
      ensures r.Err? ==> BudgetCheck(View(), host) == Some(r.error)
      ensures r.Ok? ==> r.value == BackoffOf(View(), host)
    {
      if scanCount >= limits.perScanBudget {
        return Err(ScanBudget(limits.perScanBudget));
      }
      if CountOn(View(), host) >= limits.perHostBudget {
        return Err(HostBudget(host, limits.perHostBudget));
      }
      return Ok(BackoffOf(View(), host));
    }

    method TakeGlobal()
      requires 0 < globalFree
      modifies this`globalFree
      ensures View() == WithGlobal(old(View()), -1)
    {
      globalFree := globalFree - 1;
    }

    /** The permit goes back when the wait for the host permit is cancelled. */
    method ReturnGlobal()
      modifies this`globalFree
      ensures View() == WithGlobal(old(View()), 1)
    {
      globalFree := globalFree + 1;
    }

    /** The end of `_acquire`: the connection is counted here, after all the awaits. */
    method TakeHost(host: Host)
      requires 0 < FreeOn(View(), host)
      modifies this`hostFree, this`scanCount, this`hostCounts
      ensures View() == HostTaken(old(View()), host)
    {
      hostFree := hostFree[host := FreeOn(View(), host) - 1];
      scanCount := scanCount + 1;
      hostCounts := hostCounts[host := CountOn(View(), host) + 1];
    }

    method Release(host: Host)
      modifies this`hostFree, this`globalFree
      ensures View() == Released(old(View()), host)
    {
      hostFree := hostFree[host := FreeOn(View(), host) + 1];
      globalFree := globalFree + 1;
    }

    method ReportError(host: Host)
      modifies this`backoff
      ensures View() == ErrorReported(old(View()), host)
    {
      var current := BackoffOf(View(), host);
      backoff := backoff[host := Min(MAX_BACKOFF_SECONDS,
                                     if current != 0.0 then current * 2.0 else INITIAL_BACKOFF_SECONDS)];
    }

    method ReportSuccess(host: Host)
      modifies this`backoff
      ensures View() == SuccessReported(old(View()), host)
    {
      backoff := backoff - {host};
    }
  }

  /** The shipped profiles pass their own ceiling, so each of them can be created. */
  lemma ShippedProfilesAreValid()
    ensures forall name | name in INTENSITY_PROFILES :: ValidatedAgainst(INTENSITY_PROFILES[name], HARD_CEILING)
  {
    forall name | name in INTENSITY_PROFILES
      ensures ValidatedAgainst(INTENSITY_PROFILES[name], HARD_CEILING)
    {
      assert name == "polite" || name == "normal" || name == "thorough";
    }
  }

  /** What passes the ceiling, in numbers. */
  lemma AcceptedLimits(l: Limits)
    ensures ValidatedAgainst(l, HARD_CEILING) <==>
            && 1 <= l.globalConcurrency <= 200 && 1 <= l.perHostConcurrency <= 20
            && 0.0 < l.connectionsPerSecond <= 50.0 && 0.0 < l.connectTimeout <= 5.0
            && 1 <= l.perHostBudget <= 500 && 1 <= l.perScanBudget <= 5000
  {
  }

  /** A rate passes the ceiling exactly if it is positive and at most 50, so rates below 1 do. */
  lemma AcceptedRates(l: Limits, rate: real)
    requires ValidatedAgainst(l, HARD_CEILING)
    ensures ValidatedAgainst(l.(connectionsPerSecond := rate), HARD_CEILING) <==> 0.0 < rate <= 50.0
  {
  }

  // ---- backoff ----

  function Errors(g: Gov, host: Host, n: nat): Gov {
    if n == 0 then g else ErrorReported(Errors(g, host, n - 1), host)
  }

  function Doubled(n: nat): real {
    if n == 0 then INITIAL_BACKOFF_SECONDS else 2.0 * Doubled(n - 1)
  }

  /** After a success, n + 1 errors in a row back a host off by 0.05 * 2^n seconds, at most 2 seconds, and
      leave every other host alone; the next success forgets them. */
  lemma {:induction false} BackoffDoublesUpToTheCap(g: Gov, host: Host, n: nat)
    ensures var after := Errors(SuccessReported(g, host), host, n + 1);
            && BackoffOf(after, host) == Min(MAX_BACKOFF_SECONDS, Doubled(n))
            && (forall other | other != host :: BackoffOf(after, other) == BackoffOf(g, other))
            && BackoffOf(SuccessReported(after, host), host) == 0.0
  {
    DoubledPositive(n);
    if n > 0 {
      BackoffDoublesUpToTheCap(g, host, n - 1);
      DoubledPositive(n - 1);
    } else {
      assert Errors(SuccessReported(g, host), host, 1) ==
             ErrorReported(Errors(SuccessReported(g, host), host, 0), host);
    }
  }

  lemma {:induction false} DoubledPositive(n: nat)
    ensures INITIAL_BACKOFF_SECONDS <= Doubled(n)
  {
    if n > 0 {
      DoubledPositive(n - 1);
    }
  }
}
