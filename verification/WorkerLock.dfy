/** The worker lock with its heartbeat, the recovery at start, and the claim of queued scans. A worker is
    a process; its index is its owner id. Reading the lock row and committing a new one are two steps. */
module WorkerLock {
  import opened Wrappers
  import opened Domain

  const HEARTBEAT_INTERVAL_SECONDS := 5.0
  const LOCK_STALE_AFTER_SECONDS := 30.0

  datatype LockRow = LockRow(owner: nat, heartbeat: real)

  /** `wins` and `requeues` are history: how often the scan went from queued to running and back. Rows are
      in the order of their creation. */
  datatype ScanRow = ScanRow(status: ScanStatus, claimedBy: Option<nat>, wins: nat, requeues: nat)

  datatype Phase =
    | Down
    | Reading(moment: real)                             // about to read the lock row
    | Committing(moment: real, seen: Option<LockRow>)   // has decided to take the lock, not committed yet
    | Starting                                          // has the lock, not recovered yet
    | Looping
    | Claiming(candidate: nat)
    | Executing(scan: nat)
    | LoopDead                                          // an exception ended the loop; still beats
    | Releasing(own: bool)                              // stopped, about to delete the lock row

  /** `lastBeat` is the time of the last heartbeat the worker has written for itself. */
  datatype Worker = Worker(phase: Phase, lastBeat: real)

  datatype State = State(now: real, lock: Option<LockRow>, scans: seq<ScanRow>, workers: seq<Worker>)

  datatype Step =
    | Tick(seconds: real)
    | Submit
    | BeginAcquire(w: nat)
    | ReadLock(w: nat)
    | CommitLock(w: nat)
    | Recover(w: nat)
    | Select(w: nat)
    | Claim(w: nat)
    | Finish(w: nat, status: ScanStatus)
    | LoopCrash(w: nat)
    | Beat(w: nat)
    | ReadRelease(w: nat)
    | CommitRelease(w: nat)
    | Crash(w: nat)

  // ---- the database operations ----

  predicate Refuses(seen: Option<LockRow>, w: nat, moment: real) {
    seen.Some? && seen.value.heartbeat > moment - LOCK_STALE_AFTER_SECONDS && seen.value.owner != w
  }

  /** Inserting fails if there is a row by now, updating fails if there is none any more. */
  predicate CommitFails(lock: Option<LockRow>, seen: Option<LockRow>) {
    lock.Some? != seen.Some?
  }

  function Beaten(lock: Option<LockRow>, w: nat, now: real): Option<LockRow> {
    if lock.Some? && lock.value.owner == w then Some(LockRow(w, now)) else lock
  }

  function Requeued(scans: seq<ScanRow>): seq<ScanRow> {
    seq(|scans|, c requires 0 <= c < |scans| =>
      if scans[c].status == Running then ScanRow(Queued, None, scans[c].wins, scans[c].requeues + 1) else scans[c])
  }

  function OldestQueued(scans: seq<ScanRow>): (c: nat)
    ensures c <= |scans|
    ensures c < |scans| ==> scans[c].status == Queued
    ensures forall d | 0 <= d < c :: scans[d].status != Queued
  {
    if scans == [] || scans[0].status == Queued then 0 else 1 + OldestQueued(scans[1..])
  }

  predicate ClaimWins(scans: seq<ScanRow>, c: nat) {
    c < |scans| && scans[c].status == Queued
  }

  function Claimed(scans: seq<ScanRow>, c: nat, w: nat): seq<ScanRow>
    requires ClaimWins(scans, c)
  {
    scans[c := ScanRow(Running, Some(w), scans[c].wins + 1, scans[c].requeues)]
  }

  class Database {
    var lock: Option<LockRow>
    var scans: seq<ScanRow>

    constructor ()
      ensures lock == None && scans == []
    {
      lock, scans := None, [];
    }
  }

  /** The database side of one runner, each method without interruption. */
  class ScanRunner {
    const owner: nat
    const db: Database

    constructor (owner: nat, db: Database)
      ensures this.owner == owner && this.db == db
    {
      this.owner, this.db := owner, db;
    }

    /** False stands for the error that another worker is running. */
    method AcquireWorkerLock(now: real) returns (acquired: bool)
      modifies db`lock
      ensures acquired <==> !Refuses(old(db.lock), owner, now)
      ensures !acquired <==> && old(db.lock).Some? && old(db.lock).value.owner != owner
                             && now - old(db.lock).value.heartbeat < 30.0
      ensures db.lock == if acquired then Some(LockRow(owner, now)) else old(db.lock)
    {
      if db.lock == None {
        db.lock := Some(LockRow(owner, now));
        return true;
      }
      if db.lock.value.heartbeat > now - LOCK_STALE_AFTER_SECONDS && db.lock.value.owner != owner {
        return false;
      }
      db.lock := Some(LockRow(owner, now));
      return true;
    }

    method ReleaseWorkerLock()
      modifies db`lock
      ensures db.lock == if old(db.lock).Some? && old(db.lock).value.owner == owner then None else old(db.lock)
    {
      if db.lock.Some? && db.lock.value.owner == owner {
        db.lock := None;
      }
    }

    method Beat(now: real)
      modifies db`lock
      ensures db.lock == Beaten(old(db.lock), owner, now)
    {
      if db.lock.Some? && db.lock.value.owner == owner {
        db.lock := Some(db.lock.value.(heartbeat := now));
      }
    }

    method RecoverScans()
      modifies db`scans
      ensures db.scans == Requeued(old(db.scans))
      ensures forall c | 0 <= c < |db.scans| :: db.scans[c].status != Running
      ensures forall c | 0 <= c < |db.scans| && db.scans[c] != old(db.scans)[c] ::
                && old(db.scans)[c].status == Running
                && db.scans[c].status == Queued && db.scans[c].claimedBy == None
                && db.scans[c].wins == old(db.scans)[c].wins
    {
      for c := 0 to |db.scans|
        invariant |db.scans| == |old(db.scans)|
        invariant forall d | 0 <= d < |db.scans| ::
                    db.scans[d] == if d < c then Requeued(old(db.scans))[d] else old(db.scans)[d]
      {
        if db.scans[c].status == Running {
          var row := db.scans[c];
          db.scans := db.scans[c := row.(status := Queued, claimedBy := None, requeues := row.requeues + 1)];
        }
      }
    }

    method ClaimNextScan() returns (claimed: Option<nat>)
      modifies db`scans
      ensures claimed == None ==>
                db.scans == old(db.scans) && forall c | 0 <= c < |db.scans| :: db.scans[c].status != Queued
      ensures claimed.Some? ==>
                && ClaimWins(old(db.scans), claimed.value) && db.scans == Claimed(old(db.scans), claimed.value, owner)
                && forall c | 0 <= c < claimed.value :: old(db.scans)[c].status != Queued
    {
      var candidate := OldestQueued(db.scans);
      if candidate == |db.scans| {
        return None;
      }
      var row := db.scans[candidate];
      db.scans := db.scans[candidate := ScanRow(Running, Some(owner), row.wins + 1, row.requeues)];
      return Some(candidate);
    }
  }

  // ---- the step relation ----

  predicate Holds(p: Phase) {
    p.Starting? || p.Looping? || p.Claiming? || p.Executing? || p.LoopDead? || p.Releasing?
  }

  predicate IsLive(s: State, w: int) {
    0 <= w < |s.workers| && Holds(s.workers[w].phase)
  }

  predicate Enabled(s: State, step: Step) {
    if step.Tick? then 0.0 <= step.seconds
    else if step.Submit? then true
    else step.w < |s.workers| && PhaseAllows(s, s.workers[step.w].phase, step)
  }

  predicate PhaseAllows(s: State, p: Phase, step: Step) {
    match step
    case BeginAcquire(_) => p.Down?
    case ReadLock(_) => p.Reading?
    case CommitLock(_) => p.Committing?
    case Recover(_) => p.Starting?
    case Select(_) => p.Looping?
    case Claim(_) => p.Claiming?
    case Finish(_, status) => p.Executing? && p.scan < |s.scans| && status.IsTerminal()
    case LoopCrash(_) => p.Executing?
    case Beat(_) => Holds(p) && !p.Releasing? && !p.Starting?
    case ReadRelease(_) => Holds(p) && !p.Releasing?
    case CommitRelease(_) => p.Releasing?
    case _ => true
  }

  function Put(s: State, w: nat, phase: Phase): seq<Worker>
    requires w < |s.workers|
  {
    s.workers[w := s.workers[w].(phase := phase)]
  }

  function Apply(s: State, step: Step): State
    requires Enabled(s, step)
  {
    match step
    case Tick(seconds) => s.(now := s.now + seconds)
    case Submit => s.(scans := s.scans + [ScanRow(Queued, None, 0, 0)])
    case BeginAcquire(w) => s.(workers := Put(s, w, Reading(s.now)))
    case ReadLock(w) =>
      var moment := s.workers[w].phase.moment;
      s.(workers := Put(s, w, if Refuses(s.lock, w, moment) then Down else Committing(moment, s.lock)))
    case CommitLock(w) =>
      var Committing(moment, seen) := s.workers[w].phase;
      if CommitFails(s.lock, seen) then s.(workers := Put(s, w, Down))
      else s.(lock := Some(LockRow(w, moment)), workers := s.workers[w := Worker(Starting, moment)])
    case Recover(w) => s.(scans := Requeued(s.scans), workers := Put(s, w, Looping))
    case Select(w) =>
      var c := OldestQueued(s.scans);
      s.(workers := Put(s, w, if c < |s.scans| then Claiming(c) else Looping))
    case Claim(w) =>
      var c := s.workers[w].phase.candidate;
      if ClaimWins(s.scans, c) then s.(scans := Claimed(s.scans, c, w), workers := Put(s, w, Executing(c)))
      else s.(workers := Put(s, w, Looping))
    case Finish(w, status) =>
      var c := s.workers[w].phase.scan;
      s.(scans := s.scans[c := s.scans[c].(status := status)], workers := Put(s, w, Looping))
    case LoopCrash(w) => s.(workers := Put(s, w, LoopDead))
    case Beat(w) => s.(lock := Beaten(s.lock, w, s.now), workers := s.workers[w := s.workers[w].(lastBeat := s.now)])
    case ReadRelease(w) => s.(workers := Put(s, w, Releasing(s.lock.Some? && s.lock.value.owner == w)))
    case CommitRelease(w) =>
      s.(lock := if s.workers[w].phase.own then None else s.lock, workers := Put(s, w, Down))
    case Crash(w) => s.(workers := Put(s, w, Down))
  }

  function Run(s: State, steps: seq<Step>): Option<State> {
    if steps == [] then Some(s) else
    match Run(s, steps[..|steps| - 1])
    case None => None
    case Some(before) =>
      if Enabled(before, steps[|steps| - 1]) then Some(Apply(before, steps[|steps| - 1])) else None
  }

  /** Any lock row and any scans a former worker left behind; no worker is running. */
  predicate Initial(s: State) {
    && (forall w | 0 <= w < |s.workers| :: s.workers[w].phase.Down?)
    && (forall c | 0 <= c < |s.scans| :: WinsBounded(s.scans[c]))
  }

  // ---- one winner for each time a scan is queued, without any assumption ----

  predicate WinsBounded(row: ScanRow) {
    row.wins <= row.requeues + if row.status == Queued then 0 else 1
  }

  /** Whatever the timing and the number of workers, a scan goes from queued to running at most once for
      every time it was queued: the conditional update lets one claim win. */
  lemma {:induction false} OneWinnerPerQueueing(init: State, steps: seq<Step>, c: nat)
    requires Initial(init) && Run(init, steps).Some? && c < |Run(init, steps).value.scans|
    ensures WinsBounded(Run(init, steps).value.scans[c])
  {
    if steps != [] {
      var before := Run(init, steps[..|steps| - 1]).value;
      if c < |before.scans| {
        OneWinnerPerQueueing(init, steps[..|steps| - 1], c);
      }
    }
  }

  // ---- at most one live worker ----

  /** Every live worker has written its heartbeat less than 30 seconds ago. */
  ghost predicate Timely(s: State) {
    forall w | IsLive(s, w) :: s.now - s.workers[w].lastBeat < 30.0
  }

  /** Taking over a stale row, the commit still finds the row that was read. */
  predicate AtomicTakeover(s: State, step: Step) {
    step.CommitLock? && Enabled(s, step) && s.workers[step.w].phase.seen.Some? && s.lock.Some? ==>
      s.lock == s.workers[step.w].phase.seen
  }

  /** Every live worker owns the lock row, with its own last heartbeat on it. */
  ghost predicate Exclusive(s: State) {
    forall w | IsLive(s, w) :: s.lock == Some(LockRow(w, s.workers[w].lastBeat))
  }

  /** What a worker on its way to the lock knows. */
  predicate Informed(s: State, w: int) {
    0 <= w < |s.workers| ==>
      var p := s.workers[w].phase;
      && (p.Reading? ==> p.moment <= s.now)
      && (p.Committing? ==> p.moment <= s.now && !Refuses(p.seen, w, p.moment))
      && (p.Releasing? ==> p.own)
  }

  ghost predicate Sound(s: State) {
    Exclusive(s) && forall w | 0 <= w < |s.workers| :: Informed(s, w)
  }

  /** A takeover overwrites the row of no live worker. */
  predicate SafeTakeover(s: State, step: Step) {
    step.CommitLock? && Enabled(s, step) && s.workers[step.w].phase.seen.Some? && s.lock.Some? ==>
      !IsLive(s, s.lock.value.owner)
  }

  /** For a single commit the condition is exact: taking over keeps the lock exclusive if and only if the
      row it overwrites does not belong to another live worker. */
  lemma TakeoverIsSafeExactly(s: State, w: nat)
    requires Sound(s) && Enabled(s, CommitLock(w)) && s.lock.Some? && s.workers[w].phase.seen.Some?
    ensures Exclusive(Apply(s, CommitLock(w))) <==> !IsLive(s, s.lock.value.owner)
  {
    var after, owner := Apply(s, CommitLock(w)), s.lock.value.owner;
    if IsLive(s, owner) {
      assert IsLive(after, owner) && owner != w;
    } else {
      forall o
        ensures !IsLive(s, o)
      {
      }
      assert forall o | IsLive(after, o) :: o == w;
    }
  }

  lemma CommitIsSafeExactly(s: State, w: nat)
    requires Sound(s) && Enabled(s, CommitLock(w))
    ensures Exclusive(Apply(s, CommitLock(w))) <==> SafeTakeover(s, CommitLock(w))
    ensures forall o | 0 <= o < |s.workers| :: Informed(Apply(s, CommitLock(w)), o)
  {
    var after := Apply(s, CommitLock(w));
    if s.lock.Some? && s.workers[w].phase.seen.Some? {
      TakeoverIsSafeExactly(s, w);
    } else if !CommitFails(s.lock, s.workers[w].phase.seen) {
      assert forall o | IsLive(after, o) :: o == w || IsLive(s, o);
    } else {
      assert forall o | IsLive(after, o) :: IsLive(s, o);
    }
    forall o | 0 <= o < |after.workers|
      ensures Informed(after, o)
    {
      assert Informed(s, o);
    }
  }

  lemma OtherStepKeepsSound(s: State, step: Step)
    requires Sound(s) && Enabled(s, step) && !step.CommitLock?
    ensures Sound(Apply(s, step))
  {
    var after := Apply(s, step);
    forall w | IsLive(after, w)
      ensures IsLive(s, w)
      ensures after.lock == Some(LockRow(w, after.workers[w].lastBeat))
    {
      assert IsLive(s, w);
      if !step.Tick? && !step.Submit? && IsLive(s, step.w) {
        assert s.lock == Some(LockRow(step.w, s.workers[step.w].lastBeat));
      }
    }
    forall w | 0 <= w < |after.workers|
      ensures Informed(after, w)
    {
      assert Informed(s, w);
      if step == ReadRelease(w) {
        assert IsLive(s, w);
      }
    }
  }

  lemma StepIsSafeExactly(s: State, step: Step)
    requires Sound(s) && Enabled(s, step)
    ensures Exclusive(Apply(s, step)) <==> SafeTakeover(s, step)
    ensures SafeTakeover(s, step) ==> Sound(Apply(s, step))
  {
    if step.CommitLock? {
      CommitIsSafeExactly(s, step.w);
    } else {
      OtherStepKeepsSound(s, step);
    }
  }

  /** A row that was read as stale or as the worker's own, and is still there, is of no live worker. */
  lemma OrderlyStepIsSafe(s: State, step: Step)
    requires Sound(s) && Timely(s) && Enabled(s, step) && AtomicTakeover(s, step)
    ensures SafeTakeover(s, step)
  {
    if step.CommitLock? {
      assert Informed(s, step.w);
    }
  }

  lemma StepKeepsSound(s: State, step: Step)
    requires Sound(s) && Timely(s) && Enabled(s, step) && AtomicTakeover(s, step)
    ensures Sound(Apply(s, step))
  {
    OrderlyStepIsSafe(s, step);
    StepIsSafeExactly(s, step);
  }

  // ---- in seconds ----

  /** A stopped worker that starts without interruption gets the lock of another exactly if that one has not
      beaten for 30 seconds. */
  lemma LockIsTakenAfterThirtySeconds(s: State, w: nat)
    requires w < |s.workers| && s.workers[w].phase.Down? && s.lock.Some? && s.lock.value.owner != w
    ensures var start := [BeginAcquire(w), ReadLock(w), CommitLock(w)];
            && (Run(s, start).Some? <==> 30.0 <= s.now - s.lock.value.heartbeat)
            && (Run(s, start).Some? ==> Run(s, start).value.lock == Some(LockRow(w, s.now))
                                        && IsLive(Run(s, start).value, w))
  {
    var first, second := [BeginAcquire(w)], [BeginAcquire(w), ReadLock(w)];
    var start := [BeginAcquire(w), ReadLock(w), CommitLock(w)];
    assert first[..0] == [] && second[..1] == first && start[..2] == second;
    assert Run(s, first) == Some(Apply(s, BeginAcquire(w)));
    assert Run(s, second) == Some(Apply(Apply(s, BeginAcquire(w)), ReadLock(w)));
  }

  /** By how much the next heartbeat of a worker is overdue. */
  function Overdue(s: State, w: nat): real
    requires w < |s.workers|
  {
    s.now - (s.workers[w].lastBeat + HEARTBEAT_INTERVAL_SECONDS)
  }

  /** Heartbeats are in time exactly if none is overdue by 25 seconds. */
  lemma TimelyExactly(s: State)
    ensures Timely(s) <==> forall w | IsLive(s, w) :: Overdue(s, w) < 25.0
  {
  }

  /** A live worker whose heartbeat is less than 25 seconds overdue keeps its lock: no takeover that finds the
      row it read overwrites its row, whatever the other workers' heartbeats. */
  lemma BeatingWorkerKeepsTheLock(init: State, steps: seq<Step>, v: nat, w: nat)
    requires Initial(init) && Run(init, steps).Some? && TakeoversAreSafe(init, steps)
    requires IsLive(Run(init, steps).value, w) && Overdue(Run(init, steps).value, w) < 25.0
    requires v != w && Enabled(Run(init, steps).value, CommitLock(v))
    requires AtomicTakeover(Run(init, steps).value, CommitLock(v))
    ensures Apply(Run(init, steps).value, CommitLock(v)).lock == Run(init, steps).value.lock
  {
    ExclusiveThroughoutExactly(init, steps);
    assert Informed(Run(init, steps).value, v);
  }

  // ---- which runs are exclusive throughout ----

  ghost predicate ExclusiveAfter(init: State, steps: seq<Step>) {
    Run(init, steps).Some? ==> Exclusive(Run(init, steps).value)
  }

  /** Every point of the run is exclusive. */
  ghost predicate ExclusiveThroughout(init: State, steps: seq<Step>) {
    forall k | 0 <= k <= |steps| :: ExclusiveAfter(init, steps[..k])
  }

  ghost predicate SafeAt(init: State, steps: seq<Step>, step: Step) {
    Run(init, steps).Some? ==> SafeTakeover(Run(init, steps).value, step)
  }

  ghost predicate TakeoversAreSafe(init: State, steps: seq<Step>) {
    forall k | 0 <= k < |steps| :: SafeAt(init, steps[..k], steps[k])
  }

  lemma ExclusiveNext(init: State, steps: seq<Step>)
    requires steps != [] && Run(init, steps).Some?
    ensures ExclusiveThroughout(init, steps) <==>
            ExclusiveThroughout(init, steps[..|steps| - 1]) && ExclusiveAfter(init, steps)
  {
    var earlier := steps[..|steps| - 1];
    assert steps[..|steps|] == steps;
    forall k | 0 <= k <= |earlier|
      ensures ExclusiveAfter(init, earlier[..k]) <==> ExclusiveAfter(init, steps[..k])
    {
      assert earlier[..k] == steps[..k];
    }
    if ExclusiveThroughout(init, earlier) && ExclusiveAfter(init, steps) {
      forall k | 0 <= k <= |steps|
        ensures ExclusiveAfter(init, steps[..k])
      {
        assert k < |steps| ==> ExclusiveAfter(init, earlier[..k]);
      }
    }
  }

  lemma TakeoversNext(init: State, steps: seq<Step>)
    requires steps != []
    ensures var earlier := steps[..|steps| - 1];
            TakeoversAreSafe(init, steps) <==>
            TakeoversAreSafe(init, earlier) && SafeAt(init, earlier, steps[|steps| - 1])
  {
    var earlier := steps[..|steps| - 1];
    forall k | 0 <= k < |earlier|
      ensures SafeAt(init, earlier[..k], earlier[k]) <==> SafeAt(init, steps[..k], steps[k])
    {
      assert earlier[..k] == steps[..k];
    }
    if TakeoversAreSafe(init, earlier) && SafeAt(init, earlier, steps[|steps| - 1]) {
      forall k | 0 <= k < |steps|
        ensures SafeAt(init, steps[..k], steps[k])
      {
        assert k < |earlier| ==> SafeAt(init, earlier[..k], earlier[k]);
      }
    }
  }

  /** Whatever the timing: at every point of a run every live worker owns the lock row with its own heartbeat,
      so that at most one is live, exactly if no takeover of the run overwrites the row of a live worker. */
  lemma {:induction false} ExclusiveThroughoutExactly(init: State, steps: seq<Step>)
    requires Initial(init) && Run(init, steps).Some?
    ensures ExclusiveThroughout(init, steps) <==> TakeoversAreSafe(init, steps)
    ensures ExclusiveThroughout(init, steps) ==> Sound(Run(init, steps).value)
  {
    if steps == [] {
      assert Sound(init);
    } else {
      var earlier := steps[..|steps| - 1];
      ExclusiveThroughoutExactly(init, earlier);
      ExclusiveNext(init, steps);
      TakeoversNext(init, steps);
      if ExclusiveThroughout(init, earlier) {
        StepIsSafeExactly(Run(init, earlier).value, steps[|steps| - 1]);
      }
    }
  }

  // ---- orderly runs ----

  /** A run in which live workers beat in time and takeovers find the row they read. */
  ghost predicate Orderly(init: State, steps: seq<Step>) {
    && Run(init, steps).Some?
    && forall k | 0 <= k < |steps| && Run(init, steps[..k]).Some? ::
         Timely(Run(init, steps[..k]).value) && AtomicTakeover(Run(init, steps[..k]).value, steps[k])
  }

  lemma OrderlyPrefix(init: State, steps: seq<Step>)
    requires Orderly(init, steps) && steps != []
    ensures Orderly(init, steps[..|steps| - 1])
    ensures Timely(Run(init, steps[..|steps| - 1]).value)
    ensures AtomicTakeover(Run(init, steps[..|steps| - 1]).value, steps[|steps| - 1])
  {
    var earlier := steps[..|steps| - 1];
    assert forall k | 0 <= k < |earlier| :: earlier[..k] == steps[..k] && earlier[k] == steps[k];
  }

  /** In such a run at most one worker is live at any time, and it owns the lock row. */
  lemma {:induction false} AtMostOneLiveWorker(init: State, steps: seq<Step>)
    requires Initial(init) && Orderly(init, steps)
    ensures Sound(Run(init, steps).value)
    ensures var s := Run(init, steps).value; forall v, w | IsLive(s, v) && IsLive(s, w) :: v == w
  {
    if steps != [] {
      OrderlyPrefix(init, steps);
      AtMostOneLiveWorker(init, steps[..|steps| - 1]);
      StepKeepsSound(Run(init, steps[..|steps| - 1]).value, steps[|steps| - 1]);
    }
  }

  // ---- scans under an exclusive worker ----

  /** Whoever executes a scan has it running under its own name. */
  predicate ExecutesOwn(s: State, w: int) {
    0 <= w < |s.workers| && s.workers[w].phase.Executing? ==>
      var c := s.workers[w].phase.scan;
      c < |s.scans| && s.scans[c].status == Running && s.scans[c].claimedBy == Some(w)
  }

  predicate AllExecuteOwn(s: State) {
    forall w | 0 <= w < |s.workers| :: ExecutesOwn(s, w)
  }

  lemma StepKeepsExecution(s: State, step: Step)
    requires Sound(s) && AllExecuteOwn(s) && Enabled(s, step)
    ensures AllExecuteOwn(Apply(s, step))
    ensures forall c | 0 <= c < |s.scans| && s.scans[c].status.IsTerminal() ::
              c < |Apply(s, step).scans| && Apply(s, step).scans[c] == s.scans[c]
  {
    var after := Apply(s, step);
    forall v, w | IsLive(s, v) && IsLive(s, w)
      ensures v == w
    {
      assert s.lock == Some(LockRow(v, s.workers[v].lastBeat)) && s.lock == Some(LockRow(w, s.workers[w].lastBeat));
    }
    forall w | 0 <= w < |after.workers|
      ensures ExecutesOwn(after, w)
    {
      assert ExecutesOwn(s, w);
      if s.workers[w].phase.Executing? {
        assert IsLive(s, w);
        if !step.Tick? && !step.Submit? && Holds(s.workers[step.w].phase) {
          assert IsLive(s, step.w);
        }
      }
    }
    if step.Finish? {
      assert ExecutesOwn(s, step.w);
    }
  }

  lemma {:induction false} OrderlyRunExecutesOwn(init: State, steps: seq<Step>)
    requires Initial(init) && Orderly(init, steps)
    ensures Sound(Run(init, steps).value) && AllExecuteOwn(Run(init, steps).value)
  {
    AtMostOneLiveWorker(init, steps);
    if steps != [] {
      OrderlyPrefix(init, steps);
      OrderlyRunExecutesOwn(init, steps[..|steps| - 1]);
      StepKeepsExecution(Run(init, steps[..|steps| - 1]).value, steps[|steps| - 1]);
    }
  }

  /** In an orderly run no two workers execute a scan at the same time, and an executed scan is running
      under the name of its worker. */
  lemma NoTwoExecutors(init: State, steps: seq<Step>, v: nat, w: nat)
    requires Initial(init) && Orderly(init, steps)
    requires var s := Run(init, steps).value;
             v < |s.workers| && w < |s.workers| && s.workers[v].phase.Executing? && s.workers[w].phase.Executing?
    ensures v == w && ExecutesOwn(Run(init, steps).value, w)
  {
    OrderlyRunExecutesOwn(init, steps);
    AtMostOneLiveWorker(init, steps);
    assert IsLive(Run(init, steps).value, v) && IsLive(Run(init, steps).value, w);
  }

  /** In an orderly run a scan that has become terminal never changes again. */
  lemma {:induction false} TerminalScansNeverChange(init: State, steps: seq<Step>, k: nat, c: nat)
    requires Initial(init) && Orderly(init, steps) && k <= |steps| && Run(init, steps[..k]).Some?
    requires c < |Run(init, steps[..k]).value.scans| && Run(init, steps[..k]).value.scans[c].status.IsTerminal()
    ensures c < |Run(init, steps).value.scans|
    ensures Run(init, steps).value.scans[c] == Run(init, steps[..k]).value.scans[c]
  {
    if k == |steps| {
      assert steps[..k] == steps;
    } else {
      var earlier := steps[..|steps| - 1];
      assert earlier[..k] == steps[..k];
      OrderlyPrefix(init, steps);
      TerminalScansNeverChange(init, earlier, k, c);
      OrderlyRunExecutesOwn(init, earlier);
      StepKeepsExecution(Run(init, earlier).value, steps[|steps| - 1]);
    }
  }
}
