/** The connections-per-second limiter. The clock and the token level are real numbers. */
module TokenBucket {
  import opened Wrappers

  datatype Bucket = Bucket(rate: real, tokens: real, updated: real)

  predicate WellFormed(b: Bucket) {
    0.0 < b.rate && 0.0 <= b.tokens <= b.rate
  }

  function Min(x: real, y: real): real {
    if x <= y then x else y
  }

  function Refill(b: Bucket, now: real): Bucket {
    b.(tokens := Min(b.rate, b.tokens + (now - b.updated) * b.rate), updated := now)
  }

  /** One turn of the acquire loop, the code between two awaits: refill, then take a token if there is
      one. */
  datatype Turn = Turn(bucket: Bucket, granted: bool)

  function TakeTurn(b: Bucket, now: real): Turn {
    var refilled := Refill(b, now);
    if refilled.tokens >= 1.0 then Turn(refilled.(tokens := refilled.tokens - 1.0), true)
    else Turn(refilled, false)
  }

  /** How long a turn without a token sleeps before the next one. */
  function SleepFor(b: Bucket): real
    requires 0.0 < b.rate
  {
    (1.0 - b.tokens) / b.rate
  }

  class TokenBucket {
    const rate: real
    var tokens: real
    var updated: real

    constructor (ratePerSecond: real, now: real)
      ensures View() == Bucket(ratePerSecond, ratePerSecond, now)
    {
      rate, tokens, updated := ratePerSecond, ratePerSecond, now;
    }

    function View(): Bucket
      reads this
    {
      Bucket(rate, tokens, updated)
    }

    /** The code of the loop between two awaits: refill, then take a token if there is one. */
    method TryTake(now: real) returns (granted: bool)
      modifies this
      ensures Turn(View(), granted) == TakeTurn(old(View()), now)
    {
      tokens := Min(rate, tokens + (now - updated) * rate);
      updated := now;
      granted := tokens >= 1.0;
      if granted {
        tokens := tokens - 1.0;
      }
    }

    /** The acquire loop, given what the clock reads at its turns. The caller is served at turn `served`,
        or is still waiting after all the readings. */
    method Acquire(readings: seq<real>) returns (served: Option<nat>)
      modifies this
      ensures (View(), served) == AfterTurns(old(View()), readings)
    {
      ghost var start := View();
      for turn := 0 to |readings|
        invariant AfterTurns(start, readings[..turn]) == (View(), None)
      {
        assert readings[..turn + 1][..turn] == readings[..turn];
        var granted := TryTake(readings[turn]);
        if granted {
          ServedStays(start, readings, turn + 1);
          return Some(turn);
        }
        // the caller sleeps here
      }
      assert readings[..|readings|] == readings;
      return None;
    }
  }

  /** The bucket and the serving turn after the given clock readings. */
  function AfterTurns(b: Bucket, readings: seq<real>): (Bucket, Option<nat>) {
    if readings == [] then (b, None) else
    var last := |readings| - 1;
    var (before, served) := AfterTurns(b, readings[..last]);
    if served.Some? then (before, served) else
    var turn := TakeTurn(before, readings[last]);
    (turn.bucket, if turn.granted then Some(last) else None)
  }

  lemma {:induction false} ServedStays(b: Bucket, readings: seq<real>, n: nat)
    requires n <= |readings| && AfterTurns(b, readings[..n]).1.Some?
    ensures AfterTurns(b, readings) == AfterTurns(b, readings[..n])
  {
    if n == |readings| {
      assert readings[..n] == readings;
    } else {
      var init := readings[..|readings| - 1];
      assert init[..n] == readings[..n];
      ServedStays(b, init, n);
    }
  }

  // ---- waiting time ----

  lemma TurnKeepsWellFormed(b: Bucket, now: real)
    requires WellFormed(b) && b.updated <= now
    ensures WellFormed(TakeTurn(b, now).bucket)
  {
    assert 0.0 <= (now - b.updated) * b.rate;
  }

  /** After the sleep it asked for, the next turn of a bucket with rate at least 1 is granted. */
  lemma SleepIsEnough(b: Bucket, later: real)
    requires WellFormed(b) && 1.0 <= b.rate && b.updated + SleepFor(b) <= later
    ensures TakeTurn(b, later).granted
  {
    SleptTokens(b.rate, 1.0 - b.tokens, later - b.updated);
  }

  /** And no turn before that is granted: a caller sleeps no longer than it has to. */
  lemma SleepIsExact(b: Bucket, later: real)
    requires WellFormed(b) && 1.0 <= b.rate && b.tokens < 1.0 && b.updated <= later
    ensures TakeTurn(b, later).granted <==> b.updated + SleepFor(b) <= later
  {
    if b.updated + SleepFor(b) <= later {
      SleepIsEnough(b, later);
    } else {
      TooFewTokens(b.rate, 1.0 - b.tokens, later - b.updated);
    }
  }

  lemma TooFewTokens(rate: real, missing: real, slept: real)
    requires 0.0 < rate && slept < missing / rate
    ensures slept * rate < missing
  {
    assert (missing / rate) * rate == missing;
    assert 0.0 < (missing / rate - slept) * rate;
  }

  lemma SleptTokens(rate: real, missing: real, slept: real)
    requires 0.0 < rate && missing / rate <= slept
    ensures missing <= slept * rate
  {
    assert (missing / rate) * rate == missing;
    assert 0.0 <= (slept - missing / rate) * rate;
  }

  /** From every state, a caller of a bucket with rate at least 1 is served by its second turn, if the
      sleep lasts at least as long as asked. */
  lemma ServedWithinTwoTurns(b: Bucket, first: real, second: real)
    requires WellFormed(b) && 1.0 <= b.rate && b.updated <= first
    requires first + SleepFor(TakeTurn(b, first).bucket) <= second
    ensures AfterTurns(b, [first, second]).1.Some?
  {
    TurnKeepsWellFormed(b, first);
    assert [first, second][..1] == [first] && [first][..0] == [];
    assert AfterTurns(b, [first]).0 == TakeTurn(b, first).bucket;
    SleepIsEnough(TakeTurn(b, first).bucket, second);
  }

  /** Rates between 0 and 1 pass `validate_against`, but such a bucket serves nobody, ever: the level is
      capped below one token. */
  lemma {:induction false} SlowBucketNeverServes(b: Bucket, readings: seq<real>)
    requires 0.0 < b.rate < 1.0
    ensures AfterTurns(b, readings).1 == None && AfterTurns(b, readings).0.rate == b.rate
  {
    if readings != [] {
      SlowBucketNeverServes(b, readings[..|readings| - 1]);
    }
  }

  // ---- the rate ----

  predicate Sorted(times: seq<real>) {
    forall i, j | 0 <= i <= j < |times| :: times[i] <= times[j]
  }

  /** `n` grants are covered by the burst of one second and the tokens of the time between them. */
  predicate Covered(rate: real, n: int, from: real, to: real) {
    n as real <= rate + rate * to - rate * from
  }

  predicate Spaced(rate: real, grants: seq<real>) {
    forall i, j | 0 <= i <= j < |grants| :: Covered(rate, j - i + 1, grants[i], grants[j])
  }

  /** The level never exceeds what the grants since any earlier one have left over. */
  predicate LevelCovers(rate: real, tokens: real, n: int, from: real, to: real) {
    tokens <= rate - n as real + rate * to - rate * from
  }

  ghost predicate PaidFor(b: Bucket, grants: seq<real>) {
    && WellFormed(b)
    && Sorted(grants) && Spaced(b.rate, grants)
    && (forall i | 0 <= i < |grants| :: grants[i] <= b.updated)
    && (forall i | 0 <= i < |grants| :: LevelCovers(b.rate, b.tokens, |grants| - i, grants[i], b.updated))
  }

  function Record(turn: Turn, now: real, grants: seq<real>): seq<real> {
    if turn.granted then grants + [now] else grants
  }

  lemma RefillKeepsCover(b: Bucket, n: int, from: real, now: real)
    requires LevelCovers(b.rate, b.tokens, n, from, b.updated)
    ensures LevelCovers(b.rate, Refill(b, now).tokens, n, from, now)
  {
    assert (now - b.updated) * b.rate == b.rate * now - b.rate * b.updated;
  }

  lemma RefillKeepsPaidFor(b: Bucket, grants: seq<real>, now: real)
    requires PaidFor(b, grants) && b.updated <= now
    ensures PaidFor(Refill(b, now), grants)
  {
    TurnKeepsWellFormed(b, now);
    assert 0.0 <= (now - b.updated) * b.rate;
    forall i | 0 <= i < |grants|
      ensures LevelCovers(b.rate, Refill(b, now).tokens, |grants| - i, grants[i], now)
    {
      RefillKeepsCover(b, |grants| - i, grants[i], now);
    }
  }

  lemma GrantKeepsPaidFor(b: Bucket, grants: seq<real>)
    requires PaidFor(b, grants) && 1.0 <= b.tokens
    ensures PaidFor(b.(tokens := b.tokens - 1.0), grants + [b.updated])
  {
    var now, all := b.updated, grants + [b.updated];
    assert LevelCovers(b.rate, b.tokens, 0, now, now);
    forall i | 0 <= i < |all|
      ensures LevelCovers(b.rate, b.tokens - 1.0, |all| - i, all[i], now) && Covered(b.rate, |all| - i, all[i], now)
    {
    }
    forall i, j | 0 <= i <= j < |all|
      ensures Covered(b.rate, j - i + 1, all[i], all[j])
    {
      if j < |grants| {
        assert all[j] == grants[j] && all[i] == grants[i];
      }
    }
  }

  lemma TurnKeepsPaidFor(b: Bucket, grants: seq<real>, now: real)
    requires PaidFor(b, grants) && b.updated <= now
    ensures PaidFor(TakeTurn(b, now).bucket, Record(TakeTurn(b, now), now, grants))
  {
    RefillKeepsPaidFor(b, grants, now);
    if TakeTurn(b, now).granted {
      GrantKeepsPaidFor(Refill(b, now), grants);
    }
  }

  /** How many of the times lie in a closed interval. */
  function CountIn(times: seq<real>, from: real, to: real): nat {
    if times == [] then 0
    else CountIn(times[..|times| - 1], from, to) + (if from <= times[|times| - 1] <= to then 1 else 0)
  }

  /** In a sorted list the times of an interval are one stretch. */
  lemma {:induction false} CountIsStretch(times: seq<real>, from: real, to: real) returns (i: nat, j: nat)
    requires Sorted(times)
    ensures i <= j <= |times| && CountIn(times, from, to) == j - i
    ensures i < j ==> from <= times[i] && times[j - 1] <= to
    ensures i < j < |times| ==> to < times[j]
  {
    if times == [] {
      i, j := 0, 0;
    } else {
      var last := |times| - 1;
      i, j := CountIsStretch(times[..last], from, to);
      if from <= times[last] <= to {
        i, j := if i == j then last else i, last + 1;
      }
    }
  }

  /** At most rate * (1 + length) in an interval. */
  predicate WithinRate(rate: real, n: nat, from: real, to: real) {
    n as real <= rate * (1.0 + to - from)
  }

  lemma WiderIsCovered(rate: real, n: nat, i: real, j: real, from: real, to: real)
    requires 0.0 < rate && Covered(rate, n, i, j) && from <= i && j <= to
    ensures WithinRate(rate, n, from, to)
  {
    assert 0.0 <= rate * (to - j) && 0.0 <= rate * (i - from);
  }

  lemma BoundInInterval(rate: real, grants: seq<real>, from: real, to: real)
    requires 0.0 < rate && Sorted(grants) && Spaced(rate, grants) && from <= to
    ensures WithinRate(rate, CountIn(grants, from, to), from, to)
  {
    var i, j := CountIsStretch(grants, from, to);
    if i < j {
      WiderIsCovered(rate, j - i, grants[i], grants[j - 1], from, to);
    } else {
      assert 0.0 <= rate * (1.0 + to - from);
    }
  }

  lemma PaidForBound(b: Bucket, grants: seq<real>, from: real, to: real)
    requires PaidFor(b, grants) && from <= to
    ensures WithinRate(b.rate, CountIn(grants, from, to), from, to)
  {
    BoundInInterval(b.rate, grants, from, to);
  }

  /** All turns ever taken on one bucket, by any number of callers, in the order the lock serves them. */
  function GrantsOf(b: Bucket, turns: seq<real>): (Bucket, seq<real>) {
    if turns == [] then (b, []) else
    var (before, grants) := GrantsOf(b, turns[..|turns| - 1]);
    var now := turns[|turns| - 1];
    (TakeTurn(before, now).bucket, Record(TakeTurn(before, now), now, grants))
  }

  lemma {:induction false} TurnsKeepPaidFor(b: Bucket, turns: seq<real>)
    requires WellFormed(b) && Sorted(turns) && (turns != [] ==> b.updated <= turns[0])
    ensures PaidFor(GrantsOf(b, turns).0, GrantsOf(b, turns).1)
    ensures GrantsOf(b, turns).0.updated == if turns == [] then b.updated else turns[|turns| - 1]
    ensures GrantsOf(b, turns).0.rate == b.rate
  {
    if turns != [] {
      var init := turns[..|turns| - 1];
      TurnsKeepPaidFor(b, init);
      var (before, grants) := GrantsOf(b, init);
      TurnKeepsPaidFor(before, grants, turns[|turns| - 1]);
    }
  }

  /** Over any interval and any call pattern, the bucket grants at most rate * (1 + length) tokens, and
      its level stays between 0 and the rate. */
  lemma GrantRate(b: Bucket, turns: seq<real>, from: real, to: real)
    requires WellFormed(b) && Sorted(turns) && (turns != [] ==> b.updated <= turns[0]) && from <= to
    ensures WithinRate(b.rate, CountIn(GrantsOf(b, turns).1, from, to), from, to)
    ensures WellFormed(GrantsOf(b, turns).0)
  {
    TurnsKeepPaidFor(b, turns);
    PaidForBound(GrantsOf(b, turns).0, GrantsOf(b, turns).1, from, to);
  }

  // ---- the bound is attained: a second can see twice the configured rate ----

  function Repeat(time: real, n: nat): (r: seq<real>)
    ensures |r| == n && forall i | 0 <= i < n :: r[i] == time
  {
    seq(n, _ => time)
  }

  /** What refilling would leave in the bucket at that time. */
  predicate LevelAt(b: Bucket, time: real, level: real) {
    Refill(b, time).tokens == level
  }

  lemma GrantFromLevel(b: Bucket, time: real, level: real)
    requires LevelAt(b, time, level) && 1.0 <= level
    ensures TakeTurn(b, time).granted && LevelAt(TakeTurn(b, time).bucket, time, level - 1.0)
  {
    var after := TakeTurn(b, time).bucket;
    assert after.updated == time && after.tokens == level - 1.0 && after.rate == b.rate && level <= b.rate;
  }

  lemma {:induction false} BurstGrantsAll(b: Bucket, turns: seq<real>, time: real, n: nat)
    requires LevelAt(GrantsOf(b, turns).0, time, b.rate) && n as real <= b.rate
    ensures var (after, grants) := GrantsOf(b, turns + Repeat(time, n));
            && grants == GrantsOf(b, turns).1 + Repeat(time, n)
            && LevelAt(after, time, b.rate - n as real)
            && (n > 0 ==> after.updated == time)
  {
    var all := turns + Repeat(time, n);
    if n == 0 {
      assert all == turns;
      assert GrantsOf(b, turns).1 + Repeat(time, n) == GrantsOf(b, turns).1;
    } else {
      BurstGrantsAll(b, turns, time, n - 1);
      assert all[..|all| - 1] == turns + Repeat(time, n - 1) && all[|all| - 1] == time;
      var (before, grants) := GrantsOf(b, turns + Repeat(time, n - 1));
      GrantFromLevel(before, time, b.rate - (n - 1) as real);
      assert GrantsOf(b, all) == (TakeTurn(before, time).bucket, grants + [time]);
      assert Repeat(time, n) == Repeat(time, n - 1) + [time];
      assert grants + [time] == GrantsOf(b, turns).1 + (Repeat(time, n - 1) + [time]);
      assert b.rate - (n - 1) as real - 1.0 == b.rate - n as real;
    }
  }

  lemma {:induction false} CountAll(times: seq<real>, from: real, to: real)
    requires forall i | 0 <= i < |times| :: from <= times[i] <= to
    ensures CountIn(times, from, to) == |times|
  {
    if times != [] {
      CountAll(times[..|times| - 1], from, to);
    }
  }

  lemma {:induction false} RateIsConstant(b: Bucket, turns: seq<real>)
    ensures GrantsOf(b, turns).0.rate == b.rate
  {
    if turns != [] {
      RateIsConstant(b, turns[..|turns| - 1]);
    }
  }

  function Full(rate: real): Bucket {
    Bucket(rate, rate, 0.0)
  }

  /** A fresh bucket whose rate is at least the whole number n >= 1 can grant 2n tokens within one second: n
      at its start and n at its end. */
  lemma OneSecondCanSeeTwiceTheRate(rate: real, n: nat)
    requires 1 <= n && n as real <= rate
    ensures var turns := Repeat(0.0, n) + Repeat(1.0, n);
            Sorted(turns) && CountIn(GrantsOf(Full(rate), turns).1, 0.0, 1.0) == 2 * n
  {
    var b := Full(rate);
    assert [] + Repeat(0.0, n) == Repeat(0.0, n);
    BurstGrantsAll(b, [], 0.0, n);
    var (left, first) := GrantsOf(b, Repeat(0.0, n));
    assert first == Repeat(0.0, n);
    RateIsConstant(b, Repeat(0.0, n));
    BurstGrantsAll(b, Repeat(0.0, n), 1.0, n);
    CountAll(Repeat(0.0, n) + Repeat(1.0, n), 0.0, 1.0);
  }

  /** The second from `from` on, both its ends included, sees at most as many grants as the configured rate. */
  predicate SecondWithinRate(rate: real, turns: seq<real>, from: real) {
    CountIn(GrantsOf(Full(rate), turns).1, from, from + 1.0) as real <= rate
  }

  ghost predicate EverySecondWithinRate(rate: real) {
    forall turns, from | Sorted(turns) && (turns != [] ==> 0.0 <= turns[0]) :: SecondWithinRate(rate, turns, from)
  }

  lemma {:induction false} SlowBucketGrantsNothing(rate: real, turns: seq<real>)
    requires 0.0 < rate < 1.0
    ensures GrantsOf(Full(rate), turns).1 == [] && GrantsOf(Full(rate), turns).0.rate == rate
  {
    if turns != [] {
      SlowBucketGrantsNothing(rate, turns[..|turns| - 1]);
    }
  }

  /** The configured connections per second bound every second with both its ends, over all call patterns,
      exactly if they are less than one, and then nothing is granted at all. */
  lemma RateBoundsEverySecondExactly(rate: real)
    requires 0.0 < rate
    ensures EverySecondWithinRate(rate) <==> rate < 1.0
  {
    if rate < 1.0 {
      forall turns, from | Sorted(turns) && (turns != [] ==> 0.0 <= turns[0])
        ensures SecondWithinRate(rate, turns, from)
      {
        SlowBucketGrantsNothing(rate, turns);
      }
    } else {
      var n := rate.Floor;
      assert rate < n as real + 1.0;
      OneSecondCanSeeTwiceTheRate(rate, n);
      assert 2.0 * n as real > rate;
      assert !SecondWithinRate(rate, Repeat(0.0, n) + Repeat(1.0, n), 0.0);
    }
  }

  // ---- seconds without their end ----

  /** How many of the times lie in a half-open interval. */
  function CountBefore(times: seq<real>, from: real, to: real): nat {
    if times == [] then 0
    else CountBefore(times[..|times| - 1], from, to) + (if from <= times[|times| - 1] < to then 1 else 0)
  }

  predicate OpenSecondWithinRate(rate: real, turns: seq<real>, from: real) {
    CountBefore(GrantsOf(Full(rate), turns).1, from, from + 1.0) as real <= rate
  }

  ghost predicate EveryOpenSecondWithinRate(rate: real) {
    forall turns, from | Sorted(turns) && (turns != [] ==> 0.0 <= turns[0]) :: OpenSecondWithinRate(rate, turns, from)
  }

  lemma {:induction false} OneIsCounted(times: seq<real>, from: real, to: real) returns (i: nat)
    requires CountBefore(times, from, to) >= 1
    ensures i < |times| && from <= times[i] < to
  {
    var last := |times| - 1;
    if from <= times[last] < to {
      i := last;
    } else {
      i := OneIsCounted(times[..last], from, to);
    }
  }

  lemma {:induction false} TwoAreCounted(times: seq<real>, from: real, to: real) returns (i: nat, j: nat)
    requires CountBefore(times, from, to) >= 2
    ensures i < j < |times| && from <= times[i] < to && from <= times[j] < to
  {
    var last := |times| - 1;
    if from <= times[last] < to {
      i := OneIsCounted(times[..last], from, to);
      j := last;
    } else {
      i, j := TwoAreCounted(times[..last], from, to);
    }
  }

  /** At one connection per second two grants are at least a second apart. */
  lemma RateOneIsSpaced(turns: seq<real>, from: real)
    requires Sorted(turns) && (turns != [] ==> 0.0 <= turns[0])
    ensures CountBefore(GrantsOf(Full(1.0), turns).1, from, from + 1.0) <= 1
  {
    var grants := GrantsOf(Full(1.0), turns).1;
    TurnsKeepPaidFor(Full(1.0), turns);
    if CountBefore(grants, from, from + 1.0) >= 2 {
      var i, j := TwoAreCounted(grants, from, from + 1.0);
    }
  }

  lemma {:induction false} CountAllBefore(times: seq<real>, from: real, to: real)
    requires forall i | 0 <= i < |times| :: from <= times[i] < to
    ensures CountBefore(times, from, to) == |times|
  {
    if times != [] {
      CountAllBefore(times[..|times| - 1], from, to);
    }
  }

  /** Once a bucket is left with what a burst of n leaves, the next token is there in less than a second. */
  lemma NextTokenWithinSecond(b: Bucket, n: nat) returns (time: real)
    requires b.updated == 0.0 && LevelAt(b, 0.0, b.rate - n as real)
    requires 1 <= n && n as real <= b.rate < n as real + 1.0 && 1.0 < b.rate
    ensures 0.0 < time < 1.0 && TakeTurn(b, time).granted
  {
    var missing := n as real + 1.0 - b.rate;
    time := missing / b.rate;
    assert time * b.rate == missing;
    LessThanASecond(b.rate, time, missing);
    assert (time - b.updated) * b.rate == missing;
  }

  lemma LessThanASecond(rate: real, time: real, amount: real)
    requires 0.0 < rate && time * rate == amount && 0.0 < amount < rate
    ensures 0.0 < time < 1.0
  {
    if time <= 0.0 {
      TimesGrows(time, 0.0, rate);
    } else if 1.0 <= time {
      TimesGrows(1.0, time, rate);
    }
  }

  lemma TimesGrows(x: real, y: real, rate: real)
    requires x <= y && 0.0 <= rate
    ensures x * rate <= y * rate
  {
    assert 0.0 <= (y - x) * rate;
  }

  /** Above one connection per second, a full bucket grants more than its rate in less than a second. */
  lemma OneMoreThanTheRate(rate: real) returns (turns: seq<real>)
    requires 1.0 < rate
    ensures Sorted(turns) && (turns != [] ==> 0.0 <= turns[0]) && !OpenSecondWithinRate(rate, turns, 0.0)
  {
    var b, n := Full(rate), rate.Floor;
    assert [] + Repeat(0.0, n) == Repeat(0.0, n);
    BurstGrantsAll(b, [], 0.0, n);
    RateIsConstant(b, Repeat(0.0, n));
    var left := GrantsOf(b, Repeat(0.0, n)).0;
    var time := NextTokenWithinSecond(left, n);
    turns := Repeat(0.0, n) + [time];
    assert turns[..|turns| - 1] == Repeat(0.0, n);
    assert GrantsOf(b, turns).1 == turns;
    CountAllBefore(turns, 0.0, 1.0);
  }

  /** Seconds that do not include their end are bounded by the configured rate exactly if it is at most one. */
  lemma RateBoundsEveryOpenSecondExactly(rate: real)
    requires 0.0 < rate
    ensures EveryOpenSecondWithinRate(rate) <==> rate <= 1.0
  {
    if 1.0 < rate {
      var turns := OneMoreThanTheRate(rate);
    } else {
      forall turns, from | Sorted(turns) && (turns != [] ==> 0.0 <= turns[0])
        ensures OpenSecondWithinRate(rate, turns, from)
      {
        if rate < 1.0 {
          SlowBucketGrantsNothing(rate, turns);
        } else {
          RateOneIsSpaced(turns, from);
        }
      }
    }
  }
}
