/** How fast connects can start on one governor: tokens are granted at a bounded rate, and a connect needs
    a token granted before it. */
module ConnectRate {
  import opened Counting
  import opened TokenBucket
  import opened ConnectProtocol

  /** Every token granted so far has been spent on a connect, is held by a task, or was wasted. */
  predicate TokensConserved(s: State) {
    |s.grants| == |s.starts| + Count(s.tasks, Unspent) + s.wasted
  }

  ghost predicate RateKept(s: State) {
    PaidFor(s.bucket, s.grants) && s.bucket.updated <= s.now && TokensConserved(s)
  }

  predicate MovesTokens(s: State, after: State, i: nat) {
    && i < |s.tasks| == |after.tasks| && after.tasks == s.tasks[i := after.tasks[i]]
    && |after.grants| - |s.grants| == One(Unspent(after.tasks[i]) && !Unspent(s.tasks[i]))
    && |after.starts| - |s.starts| + after.wasted - s.wasted == One(Unspent(s.tasks[i]) && !Unspent(after.tasks[i]))
  }

  lemma StepMovesTokens(s: State, step: Step)
    requires 0.0 < s.bucket.rate && Enabled(s, step) && !step.Tick?
    ensures MovesTokens(s, Apply(s, step), step.i)
  {
  }

  lemma TokensKept(s: State, after: State, i: nat)
    requires MovesTokens(s, after, i) && TokensConserved(s)
    ensures TokensConserved(after)
  {
    CountUpdate(s.tasks, i, after.tasks[i], Unspent);
  }

  /** The bucket and the grants change only in a turn, at the present time. */
  lemma StepTurnsBucket(s: State, step: Step)
    requires 0.0 < s.bucket.rate && Enabled(s, step)
    ensures var after := Apply(s, step);
            && s.now <= after.now
            && if step.TurnOf? then
                 && after.now == s.now
                 && after.bucket == TakeTurn(s.bucket, s.now).bucket
                 && after.grants == Record(TakeTurn(s.bucket, s.now), s.now, s.grants)
               else after.bucket == s.bucket && after.grants == s.grants
  {
  }

  lemma StepKeepsRate(s: State, step: Step)
    requires 0.0 < s.bucket.rate && Enabled(s, step) && RateKept(s)
    ensures RateKept(Apply(s, step))
  {
    var after := Apply(s, step);
    StepTurnsBucket(s, step);
    if step.TurnOf? {
      TurnKeepsPaidFor(s.bucket, s.grants, s.now);
    }
    if step.Tick? {
      assert TokensConserved(after);
    } else {
      StepMovesTokens(s, step);
      TokensKept(s, after, step.i);
    }
  }

  lemma {:induction false} RunKeepsRate(s: State, steps: seq<Step>)
    requires 0.0 < s.bucket.rate && RateKept(s) && After(s, steps).Some?
    ensures RateKept(After(s, steps).value)
  {
    if steps != [] {
      RunKeepsRate(s, steps[..|steps| - 1]);
      StepKeepsRate(After(s, steps[..|steps| - 1]).value, steps[|steps| - 1]);
    }
  }

  lemma InitialKeepsRate(init: State)
    requires Initial(init)
    ensures RateKept(init)
  {
    CountNone(init.tasks, Unspent);
  }

  /** The grants of a stretch of a run come after the earlier ones and fall into its time. */
  lemma {:induction false} NewGrants(s: State, steps: seq<Step>) returns (added: seq<real>)
    requires 0.0 < s.bucket.rate && After(s, steps).Some?
    ensures s.now <= After(s, steps).value.now
    ensures After(s, steps).value.grants == s.grants + added
    ensures forall i | 0 <= i < |added| :: s.now <= added[i] <= After(s, steps).value.now
  {
    if steps == [] {
      added := [];
    } else {
      added := NewGrants(s, steps[..|steps| - 1]);
      var before := After(s, steps[..|steps| - 1]).value;
      StepTurnsBucket(before, steps[|steps| - 1]);
      if steps[|steps| - 1].TurnOf? && TakeTurn(before.bucket, before.now).granted {
        added := added + [before.now];
      }
    }
  }

  lemma {:induction false} CountInConcat(s: seq<real>, t: seq<real>, from: real, to: real)
    ensures CountIn(s + t, from, to) == CountIn(s, from, to) + CountIn(t, from, to)
  {
    if t == [] {
      assert s + t == s;
    } else {
      var last := |t| - 1;
      CountInConcat(s, t[..last], from, to);
      assert (s + t)[..|s + t| - 1] == s + t[..last];
    }
  }

  /** From any reachable state on, for any stretch of any run: no more tokens are granted than
      rate * (1 + its duration), and no more connects start than that plus the tokens already held. */
  lemma StartRate(init: State, earlier: seq<Step>, steps: seq<Step>)
    requires Initial(init) && After(init, earlier).Some? && After(After(init, earlier).value, steps).Some?
    ensures var from := After(init, earlier).value;
            var to := After(from, steps).value;
            && |from.grants| <= |to.grants|
            && WithinRate(from.bucket.rate, |to.grants| - |from.grants|, from.now, to.now)
            && |to.starts| - |from.starts| <= |to.grants| - |from.grants| + Count(from.tasks, Unspent)
  {
    InitialKeepsRate(init);
    RunKeepsRate(init, earlier);
    var from := After(init, earlier).value;
    RunKeepsRate(from, steps);
    var to := After(from, steps).value;
    var added := NewGrants(from, steps);
    CountInConcat(from.grants, added, from.now, to.now);
    CountAll(added, from.now, to.now);
    PaidForBound(to.bucket, to.grants, from.now, to.now);
    WastedOnlyGrows(from, steps);
  }

  lemma {:induction false} WastedOnlyGrows(s: State, steps: seq<Step>)
    requires 0.0 < s.bucket.rate && After(s, steps).Some?
    ensures s.wasted <= After(s, steps).value.wasted
  {
    if steps != [] {
      WastedOnlyGrows(s, steps[..|steps| - 1]);
    }
  }

  /** A configured rate below 1 starves the scan: no token is ever granted and no connect ever starts. */
  lemma {:induction false} SlowRateNeverConnects(init: State, steps: seq<Step>)
    requires Initial(init) && init.gov.limits.connectionsPerSecond < 1.0 && After(init, steps).Some?
    ensures After(init, steps).value.grants == [] && After(init, steps).value.starts == []
  {
    InitialKeepsRate(init);
    RunKeepsRate(init, steps);
    NoGrants(init, steps);
  }

  lemma {:induction false} NoGrants(s: State, steps: seq<Step>)
    requires 0.0 < s.bucket.rate < 1.0 && s.grants == [] && After(s, steps).Some?
    ensures After(s, steps).value.grants == []
  {
    if steps != [] {
      NoGrants(s, steps[..|steps| - 1]);
      StepTurnsBucket(After(s, steps[..|steps| - 1]).value, steps[|steps| - 1]);
    }
  }
}
