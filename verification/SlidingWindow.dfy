/** The outbound gateway: the sliding-window limiter in front of a provider and the bounded retry loop. */
module SlidingWindow {
  import opened Wrappers

  const PUBLIC_REQUESTS_PER_WINDOW := 5
  const KEYED_REQUESTS_PER_WINDOW := 50
  const RATE_WINDOW_SECONDS := 30.0
  const MARGIN_SECONDS := 0.05

  datatype Limiter = Limiter(limit: int, window: real, timestamps: seq<real>)

  function Prune(times: seq<real>, now: real, window: real): seq<real> {
    if times == [] then [] else
    Prune(times[..|times| - 1], now, window)
    + (if now - times[|times| - 1] < window then [times[|times| - 1]] else [])
  }

  /** One turn of the acquire loop. A limiter without room and without a timestamp fails on the missing
      first timestamp. */
  datatype Turn = Granted(limiter: Limiter) | Sleep(limiter: Limiter, seconds: real) | Failed(limiter: Limiter)

  function TakeTurn(l: Limiter, now: real): Turn {
    var recent := Prune(l.timestamps, now, l.window);
    if |recent| < l.limit then Granted(l.(timestamps := recent + [now]))
    else if recent == [] then Failed(l.(timestamps := recent))
    else Sleep(l.(timestamps := recent), l.window - (now - recent[0]) + MARGIN_SECONDS)
  }

  class SlidingWindowLimiter {
    const limit: int
    const window: real
    var timestamps: seq<real>

    constructor (limit: int, windowSeconds: real)
      ensures View() == Limiter(limit, windowSeconds, [])
    {
      this.limit, window, timestamps := limit, windowSeconds, [];
    }

    function View(): Limiter
      reads this
    {
      Limiter(limit, window, timestamps)
    }

    /** The code of the loop between two awaits. */
    method TryAcquire(now: real) returns (turn: Turn)
      modifies this
      ensures turn == TakeTurn(old(View()), now) && View() == turn.limiter
    {
      timestamps := Prune(timestamps, now, window);
      if |timestamps| < limit {
        timestamps := timestamps + [now];
        return Granted(View());
      }
      if timestamps == [] {
        return Failed(View());
      }
      return Sleep(View(), window - (now - timestamps[0]) + MARGIN_SECONDS);
    }

    /** The acquire loop, given what the clock reads at its turns. */
    method Acquire(readings: seq<real>) returns (end: Progress)
      modifies this
      ensures (View(), end) == AfterTurns(old(View()), readings)
    {
      ghost var start := View();
      for turn := 0 to |readings|
        invariant AfterTurns(start, readings[..turn]) == (View(), Waiting)
      {
        assert readings[..turn + 1][..turn] == readings[..turn];
        var result := TryAcquire(readings[turn]);
        if !result.Sleep? {
          EndStays(start, readings, turn + 1);
          return if result.Granted? then Served(turn) else Crashed;
        }
        // the caller sleeps here
      }
      assert readings[..|readings|] == readings;
      return Waiting;
    }
  }

  /** Where a call of acquire stands after the given clock readings. */
  datatype Progress = Waiting | Served(turn: nat) | Crashed

  function AfterTurns(l: Limiter, readings: seq<real>): (Limiter, Progress) {
    if readings == [] then (l, Waiting) else
    var last := |readings| - 1;
    var (before, end) := AfterTurns(l, readings[..last]);
    if !end.Waiting? then (before, end) else
    var turn := TakeTurn(before, readings[last]);
    (turn.limiter, match turn case Granted(_) => Served(last) case Sleep(_, _) => Waiting case Failed(_) => Crashed)
  }

  lemma {:induction false} EndStays(l: Limiter, readings: seq<real>, n: nat)
    requires n <= |readings| && !AfterTurns(l, readings[..n]).1.Waiting?
    ensures AfterTurns(l, readings) == AfterTurns(l, readings[..n])
  {
    if n == |readings| {
      assert readings[..n] == readings;
    } else {
      var init := readings[..|readings| - 1];
      assert init[..n] == readings[..n];
      EndStays(l, init, n);
    }
  }

  // ---- pruning keeps the recent end of the history ----

  predicate Sorted(times: seq<real>) {
    forall i, j | 0 <= i <= j < |times| :: times[i] <= times[j]
  }

  lemma {:induction false} PruneDropsAll(times: seq<real>, now: real, window: real)
    requires forall i | 0 <= i < |times| :: window <= now - times[i]
    ensures Prune(times, now, window) == []
  {
    if times != [] {
      PruneDropsAll(times[..|times| - 1], now, window);
    }
  }

  /** On a sorted history pruning drops a prefix: what is left is the newest part, all of it inside the
      window, and everything dropped is outside. */
  lemma {:induction false} PruneKeepsSuffix(times: seq<real>, now: real, window: real) returns (from: nat)
    requires Sorted(times)
    ensures from <= |times| && Prune(times, now, window) == times[from..]
    ensures forall i | 0 <= i < from :: window <= now - times[i]
    ensures forall i | from <= i < |times| :: now - times[i] < window
  {
    if times == [] {
      from := 0;
    } else {
      var init, last := times[..|times| - 1], times[|times| - 1];
      assert times == init + [last];
      if now - last < window {
        from := PruneKeepsSuffix(init, now, window);
        assert times[from..] == init[from..] + [last];
      } else {
        from := |times|;
        PruneDropsAll(times, now, window);
      }
    }
  }

  /** Pruning twice, at growing times, is pruning once. */
  lemma {:induction false} PruneAgain(times: seq<real>, earlier: real, now: real, window: real)
    requires earlier <= now
    ensures Prune(Prune(times, earlier, window), now, window) == Prune(times, now, window)
  {
    if times != [] {
      var init, last := times[..|times| - 1], times[|times| - 1];
      PruneAgain(init, earlier, now, window);
      assert Prune(init, earlier, window) + [] == Prune(init, earlier, window);
    }
  }

  // ---- the window bound ----

  /** Grants that are `limit` apart in number are at least a window apart in time. */
  predicate Spread(limit: nat, window: real, grants: seq<real>) {
    forall i, j | 0 <= i < |grants| && i + limit == j < |grants| :: window <= grants[j] - grants[i]
  }

  /** The state of a limiter against everything it ever granted, at time `now`. */
  ghost predicate Remembers(l: Limiter, grants: seq<real>, now: real) {
    && 1 <= l.limit && 0.0 < l.window
    && Sorted(grants) && (forall i | 0 <= i < |grants| :: grants[i] <= now)
    && l.timestamps == Prune(grants, now, l.window)
    && |l.timestamps| <= l.limit
    && Spread(l.limit, l.window, grants)
  }

  function Record(turn: Turn, now: real, grants: seq<real>): seq<real> {
    if turn.Granted? then grants + [now] else grants
  }

  lemma PruneRemembers(l: Limiter, grants: seq<real>, earlier: real, now: real)
    requires Remembers(l, grants, earlier) && earlier <= now
    ensures Remembers(l.(timestamps := Prune(l.timestamps, now, l.window)), grants, now)
  {
    PruneAgain(grants, earlier, now, l.window);
    PruneShorter(l.timestamps, now, l.window);
  }

  lemma {:induction false} PruneShorter(times: seq<real>, now: real, window: real)
    ensures |Prune(times, now, window)| <= |times|
  {
    if times != [] {
      PruneShorter(times[..|times| - 1], now, window);
    }
  }

  lemma GrantRemembers(l: Limiter, grants: seq<real>, now: real)
    requires Remembers(l, grants, now) && |l.timestamps| < l.limit
    ensures Remembers(l.(timestamps := l.timestamps + [now]), grants + [now], now)
  {
    var from := PruneKeepsSuffix(grants, now, l.window);
    SpreadGrows(l.limit, l.window, grants, now, from);
  }

  lemma SpreadGrows(limit: nat, window: real, grants: seq<real>, now: real, from: nat)
    requires Spread(limit, window, grants) && from <= |grants| < from + limit
    requires forall i | 0 <= i < from :: window <= now - grants[i]
    ensures Spread(limit, window, grants + [now])
  {
    var all := grants + [now];
    forall i, j | 0 <= i < |all| && i + limit == j < |all|
      ensures window <= all[j] - all[i]
    {
      if j < |grants| {
        assert all[j] == grants[j] && all[i] == grants[i];
      } else {
        assert i < from && all[i] == grants[i];
      }
    }
  }

  lemma TurnRemembers(l: Limiter, grants: seq<real>, earlier: real, now: real)
    requires Remembers(l, grants, earlier) && earlier <= now
    ensures Remembers(TakeTurn(l, now).limiter, Record(TakeTurn(l, now), now, grants), now)
  {
    var pruned := l.(timestamps := Prune(l.timestamps, now, l.window));
    PruneRemembers(l, grants, earlier, now);
    if TakeTurn(l, now).Granted? {
      GrantRemembers(pruned, grants, now);
    }
  }

  /** All turns ever taken, in the order the lock serves them. */
  function GrantsOf(l: Limiter, turns: seq<real>): (Limiter, seq<real>) {
    if turns == [] then (l, []) else
    var (before, grants) := GrantsOf(l, turns[..|turns| - 1]);
    var now := turns[|turns| - 1];
    (TakeTurn(before, now).limiter, Record(TakeTurn(before, now), now, grants))
  }

  /** After every turn the pruned list is the complete grant history filtered to the window. */
  lemma {:induction false} TimestampsAreTheRecentHistory(l: Limiter, turns: seq<real>)
    requires 1 <= l.limit && 0.0 < l.window && l.timestamps == [] && Sorted(turns) && turns != []
    ensures Remembers(GrantsOf(l, turns).0, GrantsOf(l, turns).1, turns[|turns| - 1])
    ensures GrantsOf(l, turns).0.limit == l.limit && GrantsOf(l, turns).0.window == l.window
  {
    var init, now := turns[..|turns| - 1], turns[|turns| - 1];
    if init != [] {
      TimestampsAreTheRecentHistory(l, init);
      TurnRemembers(GrantsOf(l, init).0, GrantsOf(l, init).1, init[|init| - 1], now);
    } else {
      TurnRemembers(l, [], now, now);
    }
  }

  function CountWithin(times: seq<real>, from: real, to: real): nat {
    if times == [] then 0
    else CountWithin(times[..|times| - 1], from, to) + (if from <= times[|times| - 1] < to then 1 else 0)
  }

  lemma {:induction false} CountWithinSpread(limit: nat, window: real, grants: seq<real>, from: real) returns (k: nat)
    requires Sorted(grants) && Spread(limit, window, grants) && 1 <= limit
    ensures k <= |grants| && CountWithin(grants, from, from + window) <= limit
    ensures forall i | 0 <= i < |grants| :: from <= grants[i] <==> k <= i
    ensures CountWithin(grants, from, from + window) <= |grants| - k
  {
    if grants == [] {
      k := 0;
    } else {
      var last := |grants| - 1;
      var init := grants[..last];
      assert grants == init + [grants[last]];
      assert forall i, j | 0 <= i && i + limit == j < last :: init[j] == grants[j] && init[i] == grants[i];
      k := CountWithinSpread(limit, window, init, from);
      if grants[last] < from {
        k := last + 1;
      } else if limit <= last && from <= grants[last] < from + window {
        assert window <= grants[last] - grants[last - limit];
        assert last - limit < k;
      }
    }
  }

  lemma RememberedLimit(l: Limiter, grants: seq<real>, now: real, from: real)
    requires Remembers(l, grants, now)
    ensures CountWithin(grants, from, from + l.window) <= l.limit
  {
    var k := CountWithinSpread(l.limit, l.window, grants, from);
  }

  /** In no half-open stretch of the window's length are more than `limit` requests granted. */
  lemma NeverMoreThanTheLimit(l: Limiter, turns: seq<real>, from: real)
    requires 1 <= l.limit && 0.0 < l.window && l.timestamps == [] && Sorted(turns)
    ensures CountWithin(GrantsOf(l, turns).1, from, from + l.window) <= l.limit
  {
    if turns == [] {
      assert GrantsOf(l, turns).1 == [];
    } else {
      TimestampsAreTheRecentHistory(l, turns);
      var (end, grants) := GrantsOf(l, turns);
      RememberedLimit(end, grants, turns[|turns| - 1], from);
    }
  }

  lemma SleepIsEnough(l: Limiter, grants: seq<real>, now: real, later: real)
    requires Remembers(l, grants, now) && l.timestamps != []
    requires now + (l.window - (now - l.timestamps[0]) + MARGIN_SECONDS) <= later
    ensures |Prune(l.timestamps, later, l.window)| < l.limit
  {
    var kept := PruneKeepsSuffix(grants, now, l.window);
    var from := PruneKeepsSuffix(l.timestamps, later, l.window);
  }

  /** A turn without room sleeps until 0.05 seconds after the oldest grant it still counts leaves the window. */
  lemma SleepsJustLongEnough(l: Limiter, now: real)
    requires TakeTurn(l, now).Sleep?
    ensures var counted := Prune(l.timestamps, now, l.window);
            counted != [] && now + TakeTurn(l, now).seconds == counted[0] + l.window + 0.05
  {
  }

  /** In every reachable state each acquire takes at most two turns, if the sleep lasts as long as asked. */
  lemma ServedWithinTwoTurns(l: Limiter, grants: seq<real>, earlier: real, first: real, second: real)
    requires Remembers(l, grants, earlier) && earlier <= first
    requires TakeTurn(l, first).Sleep? ==> first + TakeTurn(l, first).seconds <= second
    ensures AfterTurns(l, [first, second]).1.Served?
  {
    var turn := TakeTurn(l, first);
    assert [first, second][..1] == [first] && [first][..0] == [];
    assert AfterTurns(l, []) == (l, Waiting);
    if !turn.Granted? {
      PruneRemembers(l, grants, earlier, first);
      assert turn.Sleep?;
      assert AfterTurns(l, [first]) == (turn.limiter, Waiting);
      SleepIsEnough(turn.limiter, grants, first, second);
    }
  }

  /** A limit below 1 grants nothing: the first acquire fails on the missing first timestamp. */
  lemma LimitBelowOneFails(l: Limiter, now: real)
    requires l.limit < 1 && l.timestamps == []
    ensures AfterTurns(l, [now]) == (l, Crashed)
  {
    assert [now][..0] == [];
  }

  /** The limiter of the gateway, for a deployment with an API key for the provider or without. */
  function GatewayLimiter(keyed: bool): Limiter {
    Limiter(if keyed then KEYED_REQUESTS_PER_WINDOW else PUBLIC_REQUESTS_PER_WINDOW, RATE_WINDOW_SECONDS, [])
  }

  lemma ServedAfterAnyTurns(l: Limiter, turns: seq<real>, first: real, second: real)
    requires 1 <= l.limit && 0.0 < l.window && l.timestamps == []
    requires Sorted(turns) && (turns != [] ==> turns[|turns| - 1] <= first)
    requires var turn := TakeTurn(GrantsOf(l, turns).0, first); turn.Sleep? ==> first + turn.seconds <= second
    ensures AfterTurns(GrantsOf(l, turns).0, [first, second]).1.Served?
  {
    if turns == [] {
      ServedWithinTwoTurns(l, [], first, first, second);
    } else {
      TimestampsAreTheRecentHistory(l, turns);
      ServedWithinTwoTurns(GrantsOf(l, turns).0, GrantsOf(l, turns).1, turns[|turns| - 1], first, second);
    }
  }

  /** With both limits of the code acquires never fail: after any turns the next caller is served by its second
      one, and no 30 seconds see more than 5 or 50 requests. */
  lemma GatewayIsAlwaysServed(keyed: bool, turns: seq<real>, first: real, second: real, from: real)
    requires Sorted(turns) && (turns != [] ==> turns[|turns| - 1] <= first)
    requires var turn := TakeTurn(GrantsOf(GatewayLimiter(keyed), turns).0, first);
             turn.Sleep? ==> first + turn.seconds <= second
    ensures AfterTurns(GrantsOf(GatewayLimiter(keyed), turns).0, [first, second]).1.Served?
    ensures CountWithin(GrantsOf(GatewayLimiter(keyed), turns).1, from, from + 30.0) <= if keyed then 50 else 5
  {
    NeverMoreThanTheLimit(GatewayLimiter(keyed), turns, from);
    ServedAfterAnyTurns(GatewayLimiter(keyed), turns, first, second);
  }

  function AtOnce(n: nat): (turns: seq<real>)
    ensures |turns| == n && forall i | 0 <= i < n :: turns[i] == 0.0
  {
    seq(n, _ => 0.0)
  }

  lemma {:induction false} AllGrantedAtOnce(l: Limiter, n: nat)
    requires l.timestamps == [] && 0.0 < l.window && n <= l.limit
    ensures GrantsOf(l, AtOnce(n)) == (l.(timestamps := AtOnce(n)), AtOnce(n))
  {
    if n == 0 {
      assert AtOnce(0) == [];
    } else {
      assert AtOnce(n)[..n - 1] == AtOnce(n - 1) && AtOnce(n) == AtOnce(n - 1) + [0.0];
      AllGrantedAtOnce(l, n - 1);
      NothingPruned(AtOnce(n - 1), 0.0, l.window);
    }
  }

  lemma {:induction false} NothingPruned(times: seq<real>, now: real, window: real)
    requires forall i | 0 <= i < |times| :: now - times[i] < window
    ensures Prune(times, now, window) == times
  {
    if times != [] {
      NothingPruned(times[..|times| - 1], now, window);
    }
  }

  lemma {:induction false} AllWithin(times: seq<real>, from: real, to: real)
    requires forall i | 0 <= i < |times| :: from <= times[i] < to
    ensures CountWithin(times, from, to) == |times|
  {
    if times != [] {
      AllWithin(times[..|times| - 1], from, to);
    }
  }

  /** And 30 seconds can see all 5 or 50. */
  lemma GatewayLimitIsReached(keyed: bool)
    ensures exists turns :: CountWithin(GrantsOf(GatewayLimiter(keyed), turns).1, 0.0, 30.0) == if keyed then 50 else 5
  {
    var n := if keyed then 50 else 5;
    AllGrantedAtOnce(GatewayLimiter(keyed), n);
    AllWithin(AtOnce(n), 0.0, 30.0);
    assert CountWithin(GrantsOf(GatewayLimiter(keyed), AtOnce(n)).1, 0.0, 30.0) == n;
  }

  // ---- the retry loop ----

  const MAX_ATTEMPTS := 4
  const BASE_BACKOFF_SECONDS := 1.0
  const MAX_BACKOFF_SECONDS := 30.0

  /** What one attempt meets. `retryAfter` is the header's number, if it is one; `body` is the decoded
      JSON, if it decodes. */
  datatype Response<Payload> = Unreachable | Response(status: int, body: Option<Payload>, retryAfter: Option<real>)

  datatype ProviderError = CouldNotReach | Unreadable | RateLimited(status: int) | BadStatus(status: int)

  predicate Throttled<P>(r: Response<P>) {
    r.Response? && (r.status == 403 || r.status == 429)
  }

  /** The result of the call if it ends with this response. */
  function ResultOf<P>(r: Response<P>): Result<P, ProviderError> {
    if r.Unreachable? then Err(CouldNotReach)
    else if r.status == 200 then (if r.body.Some? then Ok(r.body.value) else Err(Unreadable))
    else if Throttled(r) then Err(RateLimited(r.status))
    else Err(BadStatus(r.status))
  }

  function JitterCeiling(attempt: nat): real {
    var backoff := if attempt <= 1 then 1.0 else if attempt == 2 then 2.0 else if attempt == 3 then 4.0 else 8.0;
    if backoff * BASE_BACKOFF_SECONDS <= MAX_BACKOFF_SECONDS
    then backoff * BASE_BACKOFF_SECONDS else MAX_BACKOFF_SECONDS
  }

  /** The longest `_sleep_before_retry` can take: the jitter is drawn below it, and a negative number of seconds
      is no sleep at all. */
  function LongestSleep<P>(attempt: nat, r: Response<P>): real {
    if r.Response? && r.retryAfter.Some? then
      if r.retryAfter.value < 0.0 then 0.0
      else if r.retryAfter.value <= MAX_BACKOFF_SECONDS then r.retryAfter.value else MAX_BACKOFF_SECONDS
    else JitterCeiling(attempt)
  }

  /** How long at most the call sleeps after attempt `k`, in seconds: what Retry-After says, up to 30, or a jitter
      below 1, 2, 4 and 8; nothing after a response that ends it or a fourth attempt without a response. */
  function SleepAfter<P>(k: nat, r: Response<P>): real {
    var jitter := if k <= 1 then 1.0 else if k == 2 then 2.0 else if k == 3 then 4.0 else 8.0;
    match r
    case Unreachable => if k < 4 then jitter else 0.0
    case Response(status, _, retryAfter) =>
      if status == 403 || status == 429 || 500 <= status <= 599 then
        match retryAfter
        case None => jitter
        case Some(seconds) => if seconds < 0.0 then 0.0 else if seconds < 30.0 then seconds else 30.0
      else 0.0
  }

  function TotalSleep<P>(respond: nat -> Response<P>, requests: nat): real {
    if requests == 0 then 0.0 else TotalSleep(respond, requests - 1) + SleepAfter(requests, respond(requests))
  }

  /** No response, or one with such a status, is tried again. */
  predicate TriedAgain<P>(r: Response<P>) {
    r.Unreachable? || r.status == 403 || r.status == 429 || 500 <= r.status <= 599
  }

  /** `get_json` after the URL check: `respond(k)` is what attempt `k` meets. Returns the result, the
      number of requests made and the longest total sleep. */
  method GetJson<P>(respond: nat -> Response<P>) returns (r: Result<P, ProviderError>, requests: nat, slept: real)
    ensures 1 <= requests <= 4
    ensures forall k | 1 <= k < requests :: TriedAgain(respond(k))
    ensures requests < 4 ==> !TriedAgain(respond(requests))
    ensures r == ResultOf(respond(requests))
    ensures r.Ok? <==> respond(requests).Response? && respond(requests).status == 200 && respond(requests).body.Some?
    ensures slept == TotalSleep(respond, requests)
    ensures 0.0 <= slept <= requests as real * MAX_BACKOFF_SECONDS
  {
    slept := 0.0;
    var lastError := CouldNotReach;
    for attempt := 1 to MAX_ATTEMPTS + 1
      invariant forall k | 1 <= k < attempt :: TriedAgain(respond(k))
      invariant slept == TotalSleep(respond, attempt - 1)
      invariant attempt > 1 ==> ResultOf(respond(attempt - 1)) == Err(lastError)
      invariant 0.0 <= slept <= (attempt - 1) as real * MAX_BACKOFF_SECONDS
    {
      var response := respond(attempt);
      if response.Unreachable? {
        lastError := CouldNotReach;
        if attempt < MAX_ATTEMPTS {
          slept := slept + LongestSleep(attempt, response);
        }
      } else if response.status == 200 {
        return if response.body.Some? then Ok(response.body.value) else Err(Unreadable), attempt, slept;
      } else if Throttled(response) {
        lastError := RateLimited(response.status);
        slept := slept + LongestSleep(attempt, response);
      } else if 500 <= response.status < 600 {
        lastError := BadStatus(response.status);
        slept := slept + LongestSleep(attempt, response);
      } else {
        return Err(BadStatus(response.status)), attempt, slept;
      }
    }
    return Err(lastError), MAX_ATTEMPTS, slept;
  }
}
