/** Many tasks inside `ScanGuard.connect` on one governor. A step is the code one task runs between two
    awaits, or the passing of time; every interleaving of steps is a run. */
module ConnectProtocol {
  import opened Wrappers
  import opened Counting
  import opened Ledger
  import opened TokenBucket
  import opened Governor

  /** How a connect that was counted can fail; a cancel while connecting is one of the other exceptions. */
  datatype Failure = RefusedByHost | TimedOut | HostError | OtherException

  /** How a task ends. */
  datatype End =
    | RefusedByGuard(reason: Refusal)
    | OverBudget
    | Opened
    | Errored(failure: Failure)
    | CanceledEarly          // before it was counted, without an entry
    | CanceledRefused(reason: Refusal)    // refused, and cancelled once its denied entry was committed
    | EntryLost              // counted, then cancelled before its audit entry was committed
    | EntryKept(outcome: EntryOutcome)    // counted, then cancelled once it was

  /** Where a task stands. Every phase but the first and the last is an await of the code. */
  datatype Phase =
    | Idle                   // not started
    | Refusing(reason: Refusal)  // writing the denied entry
    | BackingOff(until: real)
    | Queued                 // waiting for the lock of the bucket
    | InBucket(wake: real)   // holds that lock, asleep between two turns
    | HasToken               // waiting for a global permit
    | HasGlobal              // waiting for a host permit
    | Connecting             // both permits, counted, the socket is connecting
    | Failing(failure: Failure)  // writing the audit entry, still with both permits
    | Recording              // connected, permits returned; writing the audit entry
    | Finished(end: End)

  /** `refusal` is what the guard's checks of the destination come to. */
  datatype Task = Task(host: Host, port: int, refusal: Option<Refusal>, phase: Phase)

  datatype State = State(
    now: real,
    gov: Gov,
    bucket: Bucket,
    tasks: seq<Task>,
    ledger: seq<LedgerEntry>,
    grants: seq<real>,       // history: when tokens were granted
    starts: seq<real>,       // history: when connects were started
    wasted: nat,             // history: tokens whose task was cancelled before its connect
    lost: seq<Host>)         // history: connects whose audit entry was interrupted

  datatype Step =
    | Tick(seconds: real)
    | Begin(i: nat)          // address checks and budget checks
    | Wake(i: nat)           // the backoff is over
    | TurnOf(i: nat)         // one turn of the bucket loop
    | TakeGlobalPermit(i: nat)
    | TakeHostPermit(i: nat)
    | Succeed(i: nat)
    | Fail(i: nat, failure: Failure)
    | WriteEntry(i: nat)
    | Cancel(i: nat)         // cancelled at any other await; what was being written is not committed
    | CancelRecorded(i: nat) // cancelled with the entry committed and the write not yet returned

  // ---- the step relation ----

  function Moved(s: State, i: nat, phase: Phase): seq<Task>
    requires i < |s.tasks|
  {
    s.tasks[i := s.tasks[i].(phase := phase)]
  }

  predicate LockIsFree(s: State) {
    forall j | 0 <= j < |s.tasks| :: !s.tasks[j].phase.InBucket?
  }

  predicate Enabled(s: State, step: Step) {
    if step.Tick? then 0.0 <= step.seconds
    else step.i < |s.tasks| &&
         var t := s.tasks[step.i];
         match step
         case Begin(_) => t.phase.Idle?
         case Wake(_) => t.phase.BackingOff? && t.phase.until <= s.now
         case TurnOf(_) => (t.phase.Queued? && LockIsFree(s)) || (t.phase.InBucket? && t.phase.wake <= s.now)
         case TakeGlobalPermit(_) => t.phase.HasToken? && 0 < s.gov.globalFree
         case TakeHostPermit(_) => t.phase.HasGlobal? && 0 < FreeOn(s.gov, t.host)
         case Succeed(_) => t.phase.Connecting?
         case Fail(_, _) => t.phase.Connecting?
         case WriteEntry(_) => Writing(t)
         case Cancel(_) => !t.phase.Finished? && !t.phase.Connecting?
         case CancelRecorded(_) => Writing(t)
  }

  predicate Writing(t: Task) {
    t.phase.Refusing? || t.phase.Failing? || t.phase.Recording?
  }

  function ProbeOutcome(t: Task): EntryOutcome {
    if t.phase.Failing? then ConnectFailed else Connected
  }

  /** The entry a task is writing. */
  function EntryOf(t: Task): LedgerEntry {
    if t.phase.Refusing? then DeniedEntry(ToAddress(t.host), Some(t.port), t.phase.reason)
    else AllowedEntry(ToAddress(t.host), Some(t.port), ProbeOutcome(t))
  }

  /** A port out of range is refused at once, without an entry. */
  function Refuse(reason: Refusal): Phase {
    if reason.PortOutOfRange? then Finished(RefusedByGuard(reason)) else Refusing(reason)
  }

  /** How a task ends whose entry is written, and how one that is cancelled. */
  function Written(t: Task): End {
    match t.phase
    case Refusing(reason) => RefusedByGuard(reason)
    case Failing(failure) => Errored(failure)
    case _ => Opened
  }

  function Interrupt(t: Task, committed: bool): End {
    match t.phase
    case Refusing(reason) => if committed then CanceledRefused(reason) else CanceledEarly
    case _ => if !Pending(t) then CanceledEarly else if committed then EntryKept(ProbeOutcome(t)) else EntryLost
  }

  function Apply(s: State, step: Step): State
    requires 0.0 < s.bucket.rate && Enabled(s, step)
  {
    match step
    case Tick(seconds) => s.(now := s.now + seconds)
    case Begin(i) =>
      var t := s.tasks[i];
      if t.refusal.Some? then
        s.(tasks := Moved(s, i, Refuse(t.refusal.value)))
      else if BudgetCheck(s.gov, t.host).Some? then s.(tasks := Moved(s, i, Finished(OverBudget)))
      else if BackoffOf(s.gov, t.host) != 0.0 then
        s.(tasks := Moved(s, i, BackingOff(s.now + BackoffOf(s.gov, t.host))))
      else s.(tasks := Moved(s, i, Queued))
    case Wake(i) => s.(tasks := Moved(s, i, Queued))
    case TurnOf(i) =>
      var turn := TakeTurn(s.bucket, s.now);
      s.(bucket := turn.bucket,
         tasks := Moved(s, i, if turn.granted then HasToken else InBucket(s.now + SleepFor(turn.bucket))),
         grants := Record(turn, s.now, s.grants))
    case TakeGlobalPermit(i) => s.(tasks := Moved(s, i, HasGlobal), gov := WithGlobal(s.gov, -1))
    case TakeHostPermit(i) =>
      s.(tasks := Moved(s, i, Connecting), gov := HostTaken(s.gov, s.tasks[i].host), starts := s.starts + [s.now])
    case Succeed(i) =>
      var host := s.tasks[i].host;
      s.(tasks := Moved(s, i, Recording), gov := SuccessReported(Released(s.gov, host), host))
    case Fail(i, failure) =>
      s.(tasks := Moved(s, i, Failing(failure)), gov := ErrorReported(s.gov, s.tasks[i].host))
    case WriteEntry(i) =>
      var t := s.tasks[i];
      s.(tasks := Moved(s, i, Finished(Written(t))),
         ledger := s.ledger + [EntryOf(t)],
         gov := if t.phase.Failing? then Released(s.gov, t.host) else s.gov)
    case Cancel(i) =>
      var t := s.tasks[i];
      s.(tasks := Moved(s, i, Finished(Interrupt(t, false))),
         gov := if t.phase.HasGlobal? then WithGlobal(s.gov, 1)
                else if t.phase.Failing? then Released(s.gov, t.host) else s.gov,
         wasted := if Unspent(t) then s.wasted + 1 else s.wasted,
         lost := if Pending(t) then s.lost + [t.host] else s.lost)
    case CancelRecorded(i) =>
      var t := s.tasks[i];
      s.(tasks := Moved(s, i, Finished(Interrupt(t, true))),
         ledger := s.ledger + [EntryOf(t)],
         gov := if t.phase.Failing? then Released(s.gov, t.host) else s.gov)
  }

  /** The state after the steps, or None if one of them was not enabled. */
  function After(s: State, steps: seq<Step>): Option<State>
    requires 0.0 < s.bucket.rate
    ensures After(s, steps).Some? ==> After(s, steps).value.bucket.rate == s.bucket.rate
  {
    if steps == [] then Some(s) else
    match After(s, steps[..|steps| - 1])
    case None => None
    case Some(before) =>
      if Enabled(before, steps[|steps| - 1]) then Some(Apply(before, steps[|steps| - 1])) else None
  }

  /** A fresh governor, validation entries only in the ledger, which have no port, and any number of tasks to
      come. */
  predicate Initial(s: State) {
    && 0 < s.gov.limits.globalConcurrency && 0 < s.gov.limits.perHostConcurrency
    && 0 < s.gov.limits.perScanBudget && 0 < s.gov.limits.perHostBudget
    && 0.0 < s.gov.limits.connectionsPerSecond
    && s.gov == Fresh(s.gov.limits)
    && s.bucket == Bucket(s.gov.limits.connectionsPerSecond, s.gov.limits.connectionsPerSecond, s.now)
    && (forall i | 0 <= i < |s.tasks| :: s.tasks[i].phase.Idle?)
    && (forall i | 0 <= i < |s.ledger| :: s.ledger[i].port == None)
    && s.grants == [] && s.starts == [] && s.wasted == 0 && s.lost == []
  }

  // ---- who holds what ----

  predicate HoldsGlobal(t: Task) {
    t.phase.HasGlobal? || t.phase.Connecting? || t.phase.Failing?
  }

  predicate HoldsHost(t: Task) {
    t.phase.Connecting? || t.phase.Failing?
  }

  function HoldsOn(host: Host): Task -> bool {
    (t: Task) => t.host == host && HoldsHost(t)
  }

  /** Has a token but has not started its connect. */
  predicate Unspent(t: Task) {
    t.phase.HasToken? || t.phase.HasGlobal?
  }

  /** Counted by the governor, not yet in the ledger. */
  predicate Pending(t: Task) {
    t.phase.Connecting? || t.phase.Failing? || t.phase.Recording?
  }

  function PendingOn(host: Host): Task -> bool {
    (t: Task) => t.host == host && Pending(t)
  }

  /** Past the budget check, not yet counted. */
  predicate InFlight(t: Task) {
    t.phase.BackingOff? || t.phase.Queued? || t.phase.InBucket? || Unspent(t)
  }

  function InFlightOn(host: Host): Task -> bool {
    (t: Task) => t.host == host && InFlight(t)
  }

  function ProbeOf(host: Host): LedgerEntry -> bool {
    (e: LedgerEntry) => IsProbe(e) && e.destination == ToAddress(host)
  }

  function Is(host: Host): Host -> bool {
    (h: Host) => h == host
  }

  // ---- permits are conserved ----

  /** Free permits and held permits add up to the configured concurrency, globally and on every host. */
  ghost predicate PermitsConserved(s: State) {
    && 0 <= s.gov.globalFree
    && s.gov.globalFree + Count(s.tasks, HoldsGlobal) == s.gov.limits.globalConcurrency
    && forall host :: HostConserved(s, host)
  }

  predicate HostConserved(s: State, host: Host) {
    && 0 <= FreeOn(s.gov, host)
    && FreeOn(s.gov, host) + Count(s.tasks, HoldsOn(host)) == s.gov.limits.perHostConcurrency
  }

  function One(b: bool): int {
    if b then 1 else 0
  }

  /** A step takes and returns permits exactly as the phase of its task says. */
  predicate MovesPermits(s: State, after: State, i: nat) {
    && i < |s.tasks| == |after.tasks| && after.tasks == s.tasks[i := after.tasks[i]]
    && var t, moved := s.tasks[i], after.tasks[i];
    && moved.host == t.host && after.gov.limits == s.gov.limits
    && after.gov.globalFree == s.gov.globalFree + One(HoldsGlobal(t)) - One(HoldsGlobal(moved))
    && (HoldsGlobal(moved) && !HoldsGlobal(t) ==> 0 < s.gov.globalFree)
    && after.gov.hostFree == (if HoldsHost(t) == HoldsHost(moved) then s.gov.hostFree
                              else s.gov.hostFree[
                                t.host := FreeOn(s.gov, t.host) + One(HoldsHost(t)) - One(HoldsHost(moved))])
    && (HoldsHost(moved) && !HoldsHost(t) ==> 0 < FreeOn(s.gov, t.host))
  }

  lemma StepMovesPermits(s: State, step: Step)
    requires 0.0 < s.bucket.rate && Enabled(s, step) && !step.Tick?
    ensures MovesPermits(s, Apply(s, step), step.i)
  {
    if EndsTask(step) {
      EndMovesPermits(s, step);
    }
  }

  predicate EndsTask(step: Step) {
    step.WriteEntry? || step.Cancel? || step.CancelRecorded?
  }

  lemma EndMovesPermits(s: State, step: Step)
    requires 0.0 < s.bucket.rate && Enabled(s, step) && EndsTask(step)
    ensures MovesPermits(s, Apply(s, step), step.i)
  {
  }

  lemma GlobalKept(s: State, after: State, i: nat)
    requires MovesPermits(s, after, i) && 0 <= s.gov.globalFree
    requires s.gov.globalFree + Count(s.tasks, HoldsGlobal) == s.gov.limits.globalConcurrency
    ensures 0 <= after.gov.globalFree
    ensures after.gov.globalFree + Count(after.tasks, HoldsGlobal) == after.gov.limits.globalConcurrency
  {
    CountUpdate(s.tasks, i, after.tasks[i], HoldsGlobal);
  }

  lemma HostKept(s: State, after: State, i: nat, host: Host)
    requires MovesPermits(s, after, i) && HostConserved(s, host)
    ensures HostConserved(after, host)
  {
    CountUpdate(s.tasks, i, after.tasks[i], HoldsOn(host));
  }

  lemma StepConservesPermits(s: State, step: Step)
    requires 0.0 < s.bucket.rate && Enabled(s, step) && PermitsConserved(s)
    ensures PermitsConserved(Apply(s, step)) && Apply(s, step).gov.limits == s.gov.limits
  {
    var after := Apply(s, step);
    if !step.Tick? {
      StepMovesPermits(s, step);
      GlobalKept(s, after, step.i);
    }
    forall host
      ensures HostConserved(after, host)
    {
      assert HostConserved(s, host);
      if !step.Tick? {
        HostKept(s, after, step.i, host);
      }
    }
  }

  lemma {:induction false} CountNone<T>(s: seq<T>, p: T -> bool)
    requires forall i | 0 <= i < |s| :: !p(s[i])
    ensures Count(s, p) == 0
  {
    CountPositive(s, p);
  }

  /** In every reachable state, whatever was cancelled or failed at whatever await. */
  lemma {:induction false} PermitsAlwaysConserved(init: State, steps: seq<Step>)
    requires Initial(init) && After(init, steps).Some?
    ensures PermitsConserved(After(init, steps).value)
    ensures After(init, steps).value.gov.limits == init.gov.limits
  {
    if steps == [] {
      CountNone(init.tasks, HoldsGlobal);
      forall host
        ensures HostConserved(init, host)
      {
        CountNone(init.tasks, HoldsOn(host));
      }
    } else {
      var init', last := steps[..|steps| - 1], steps[|steps| - 1];
      PermitsAlwaysConserved(init, init');
      StepConservesPermits(After(init, init').value, last);
    }
  }

  // ---- the ledger agrees with the counters ----

  /** Each counted connect is in the ledger, on its way there, or was interrupted on its way. */
  ghost predicate AuditAgrees(s: State) {
    && s.gov.scanCount == Count(s.ledger, IsProbe) + Count(s.tasks, Pending) + |s.lost|
    && MapTotal(s.gov.hostCounts) == s.gov.scanCount
    && forall host :: HostAuditAgrees(s, host)
  }

  predicate HostAuditAgrees(s: State, host: Host) {
    var counted := Count(s.ledger, ProbeOf(host)) + Count(s.tasks, PendingOn(host)) + Count(s.lost, Is(host));
    CountOn(s.gov, host) == counted && (host in s.gov.hostCounts <==> counted > 0)
  }

  /** What a step means for the audit. */
  datatype AuditEvent = NoEvent | Denial | Start | Entry | Loss

  predicate Means(s: State, after: State, i: nat, event: AuditEvent) {
    && i < |s.tasks| == |after.tasks| && after.tasks == s.tasks[i := after.tasks[i]]
    && var t, moved := s.tasks[i], after.tasks[i];
    && moved.host == t.host
    && (Pending(t) <==> event.Entry? || event.Loss? || (event.NoEvent? && Pending(moved)))
    && (Pending(moved) <==> event.Start? || (event.NoEvent? && Pending(t)))
    && (event.Denial? ==> t.phase.Refusing?)
    && after.ledger == s.ledger + (if event.Entry? || event.Denial? then [EntryOf(t)] else [])
    && after.lost == s.lost + (if event.Loss? then [t.host] else [])
    && after.gov.scanCount == s.gov.scanCount + (if event.Start? then 1 else 0)
    && after.gov.hostCounts == (if event.Start? then s.gov.hostCounts[t.host := CountOn(s.gov, t.host) + 1]
                                else s.gov.hostCounts)
  }

  lemma StepMeans(s: State, step: Step) returns (event: AuditEvent)
    requires 0.0 < s.bucket.rate && Enabled(s, step) && !step.Tick?
    ensures Means(s, Apply(s, step), step.i, event)
  {
    var t := s.tasks[step.i];
    event :=
      if step.TakeHostPermit? then Start
      else if step.WriteEntry? || step.CancelRecorded? then (if t.phase.Refusing? then Denial else Entry)
      else if step.Cancel? && Pending(t) then Loss
      else NoEvent;
  }

  lemma ScanAuditKept(s: State, after: State, i: nat, event: AuditEvent)
    requires Means(s, after, i, event)
    requires s.gov.scanCount == Count(s.ledger, IsProbe) + Count(s.tasks, Pending) + |s.lost|
    ensures after.gov.scanCount == Count(after.ledger, IsProbe) + Count(after.tasks, Pending) + |after.lost|
  {
    CountUpdate(s.tasks, i, after.tasks[i], Pending);
    LedgerMoves(s, after, i, event, IsProbe);
  }

  lemma HostTotalKept(s: State, after: State, i: nat, event: AuditEvent)
    requires Means(s, after, i, event) && MapTotal(s.gov.hostCounts) == s.gov.scanCount
    ensures MapTotal(after.gov.hostCounts) == after.gov.scanCount
  {
    var host := s.tasks[i].host;
    MapTotalUpdate(s.gov.hostCounts, host, CountOn(s.gov, host) + 1);
  }

  lemma LedgerMoves(s: State, after: State, i: nat, event: AuditEvent, p: LedgerEntry -> bool)
    requires Means(s, after, i, event) && forall e :: p(e) ==> IsProbe(e)
    ensures Count(after.ledger, p) == Count(s.ledger, p) + One(event.Entry? && p(EntryOf(s.tasks[i])))
  {
    CountAppend(s.ledger, EntryOf(s.tasks[i]), p);
    assert s.ledger + [] == s.ledger;
  }

  lemma LostMoves(s: State, after: State, i: nat, event: AuditEvent, host: Host)
    requires Means(s, after, i, event)
    ensures Count(after.lost, Is(host)) == Count(s.lost, Is(host)) + One(event.Loss? && s.tasks[i].host == host)
  {
    CountAppend(s.lost, s.tasks[i].host, Is(host));
    assert s.lost + [] == s.lost;
  }

  lemma HostAuditKept(s: State, after: State, i: nat, event: AuditEvent, host: Host)
    requires Means(s, after, i, event) && HostAuditAgrees(s, host)
    ensures HostAuditAgrees(after, host)
  {
    CountUpdate(s.tasks, i, after.tasks[i], PendingOn(host));
    LedgerMoves(s, after, i, event, ProbeOf(host));
    LostMoves(s, after, i, event, host);
  }

  lemma StepKeepsAudit(s: State, step: Step)
    requires 0.0 < s.bucket.rate && Enabled(s, step) && AuditAgrees(s)
    ensures AuditAgrees(Apply(s, step))
  {
    var after := Apply(s, step);
    var event := NoEvent;
    if !step.Tick? {
      event := StepMeans(s, step);
      ScanAuditKept(s, after, step.i, event);
      HostTotalKept(s, after, step.i, event);
    }
    forall host
      ensures HostAuditAgrees(after, host)
    {
      assert HostAuditAgrees(s, host);
      if !step.Tick? {
        HostAuditKept(s, after, step.i, event, host);
      }
    }
  }

  /** In every reachable state the counters are the ledger plus the connects not yet recorded, in total
      and per host; the per-host counts add up to the total; and the hosts touched are the distinct
      hosts counted. With no interrupted ledger write, `lost` is empty. */
  lemma {:induction false} AuditAlwaysAgrees(init: State, steps: seq<Step>)
    requires Initial(init) && After(init, steps).Some?
    ensures AuditAgrees(After(init, steps).value)
  {
    if steps == [] {
      CountNone(init.tasks, Pending);
      CountNone(init.ledger, IsProbe);
      forall host
        ensures HostAuditAgrees(init, host)
      {
        CountNone(init.tasks, PendingOn(host));
        CountNone(init.ledger, ProbeOf(host));
      }
    } else {
      var init', last := steps[..|steps| - 1], steps[|steps| - 1];
      AuditAlwaysAgrees(init, init');
      StepKeepsAudit(After(init, init').value, last);
    }
  }
}
