/** Executing one scan: the module loop with its durable rows, a crash at any await, recovery and a new
    claim, and a cancel request from outside. Each database commit is one step. Modules are numbered in
    the order they run in. */
module ScanExecution {
  import opened Wrappers
  import opened Domain
  import PortScan

  type Finding = PortScan.Finding

  const STOPPED := "the worker stopped before this module finished"
  const CANCELED := "the scan was canceled"
  const UNSUPPORTED := "this module does not support the type of the target"

  datatype ModuleResult = ModuleResult(findings: seq<Finding>, cacheHit: bool, warnings: seq<string>)

  /** How a module run ends, if it ends with one of the handled exceptions or none. */
  datatype Outcome =
    | Returned(result: ModuleResult)
    | Raised(reason: string, code: string)

  datatype Row = Row(status: ModuleStatus, attempts: nat, findingCount: nat, cacheHit: bool,
                     message: Option<string>, code: Option<string>)

  /** `attempt` is history: the attempt of the module the finding comes from. */
  datatype Stored = Stored(m: nat, attempt: nat, finding: Finding)

  datatype Db = Db(status: ScanStatus, cancel: bool, rows: seq<Row>, findings: seq<Stored>)

  /** The variables of the loop. */
  datatype Memory = Memory(anySuccess: bool, anyProblem: bool, produced: seq<Finding>)

  /** Why a scan is given its final status. */
  datatype Why = Refused | CancelSeen | Finished

  datatype Pc =
    | Dead
    | Dispatching
    | Checking(i: nat)                       // about to read the cancel flag, before module i or after the last
    | Declining(i: nat)
    | Entering(i: nat)
    | InBody(i: nat)
    | Failing(i: nat, reason: string, code: string)
    | Storing(i: nat, result: ModuleResult)
    | Marking(i: nat, result: ModuleResult)
    | Skipping
    | Closing(status: ScanStatus, why: Why)
    | Ended(why: Why)

  /** `plan[i]` says whether module i applies to the type of the target. History: `returned[i]` is what
      module i returned in its latest attempt, if it did; `atClaim` are the rows at the latest claim. */
  datatype State = State(plan: seq<bool>, db: Db, pc: Pc, memory: Memory,
                         returned: seq<Option<ModuleResult>>, atClaim: seq<Row>)

  datatype Step =
    | Claim
    | Dispatch(accepted: bool)               // the scope profile exists and the target is still in scope
    | Check
    | Decline
    | Enter(i: nat)
    | Body(outcome: Outcome)
    | Fail
    | Store
    | Mark
    | Skip
    | Close
    | Crash
    | Recover
    | Cancel                                 // a request whose check of the status has passed, now or before

  // ---- the database operations ----

  function Or<T>(value: Option<T>, otherwise: Option<T>): Option<T> {
    if value.Some? then value else otherwise
  }

  function SetRunning(row: Row): Row {
    row.(status := ModuleRunning, attempts := row.attempts + 1)
  }

  function SetEnded(row: Row, status: ModuleStatus, reason: Option<string>, code: Option<string>, count: nat, hit: bool)
    : Row
  {
    Row(status, row.attempts, count, hit, Or(reason, row.message), Or(code, row.code))
  }

  function Join(warnings: seq<string>): string {
    if warnings == [] then ""
    else if |warnings| == 1 then warnings[0]
    else warnings[0] + "; " + Join(warnings[1..])
  }

  function SetDone(row: Row, result: ModuleResult): Row {
    SetEnded(row, Done, if result.warnings != [] then Some(Join(result.warnings)) else None, None,
             |result.findings|, result.cacheHit)
  }

  function SkipRow(row: Row): Row {
    if row.status.ModuleQueued? || row.status.ModuleRunning?
    then row.(status := Skipped, message := Some(CANCELED)) else row
  }

  function InterruptRow(row: Row): Row {
    if row.status.ModuleRunning? then row.(status := Interrupted, message := Some(STOPPED)) else row
  }

  function AllSkipped(rows: seq<Row>): seq<Row> {
    seq(|rows|, j requires 0 <= j < |rows| => SkipRow(rows[j]))
  }

  function AllInterrupted(rows: seq<Row>): seq<Row> {
    seq(|rows|, j requires 0 <= j < |rows| => InterruptRow(rows[j]))
  }

  function Tagged(m: nat, attempt: nat, findings: seq<Finding>): seq<Stored> {
    seq(|findings|, k requires 0 <= k < |findings| => Stored(m, attempt, findings[k]))
  }

  function Requeued(status: ScanStatus): ScanStatus {
    if status == Running then Queued else status
  }

  function VerdictOf(memory: Memory): ScanStatus {
    if !memory.anySuccess then Failed
    else if memory.anyProblem then CompletedWithWarnings
    else Completed
  }

  function AddReturned(memory: Memory, result: ModuleResult): Memory {
    Memory(true, memory.anyProblem || result.warnings != [], memory.produced + result.findings)
  }

  // ---- the step relation ----

  predicate HasModule(pc: Pc) {
    pc.Declining? || pc.Entering? || pc.InBody? || pc.Failing? || pc.Storing? || pc.Marking?
  }

  predicate Fits(s: State) {
    && |s.db.rows| == |s.returned| == |s.atClaim| == |s.plan|
    && (s.pc.Checking? ==> s.pc.i <= |s.plan|)
    && (HasModule(s.pc) ==> s.pc.i < |s.plan|)
  }

  predicate Enabled(s: State, step: Step) {
    && Fits(s)
    && match step
       case Claim => s.pc.Dead? && s.db.status == Queued
       case Dispatch(_) => s.pc.Dispatching?
       case Check => s.pc.Checking?
       case Decline => s.pc.Declining?
       case Enter(i) => s.pc == Entering(i)
       case Body(_) => s.pc.InBody?
       case Fail => s.pc.Failing?
       case Store => s.pc.Storing?
       case Mark => s.pc.Marking?
       case Skip => s.pc.Skipping?
       case Close => s.pc.Closing?
       case Crash => !s.pc.Dead? && !s.pc.Ended?
       case Recover => s.pc.Dead? || s.pc.Ended?
       case Cancel => true
  }

  function WithRow(s: State, i: nat, row: Row): Db
    requires i < |s.db.rows|
  {
    s.db.(rows := s.db.rows[i := row])
  }

  function Apply(s: State, step: Step): State
    requires Enabled(s, step)
  {
    match step
    case Claim => s.(db := s.db.(status := Running), pc := Dispatching, atClaim := s.db.rows)
    case Dispatch(accepted) =>
      if accepted then s.(pc := Checking(0), memory := Memory(false, false, []))
      else s.(pc := Closing(ScanStatus.Failed, Refused))
    case Check => s.(pc := AfterCheck(s))
    case Decline =>
      var i := s.pc.i;
      s.(db := WithRow(s, i, SetEnded(s.db.rows[i], NotApplicable, Some(UNSUPPORTED), None, 0, false)),
         pc := Checking(i + 1))
    case Enter(i) =>
      s.(db := WithRow(s, i, SetRunning(s.db.rows[i])), pc := InBody(i), returned := s.returned[i := None])
    case Body(outcome) => AfterBody(s, s.pc.i, outcome)
    case Fail =>
      var Failing(i, reason, code) := s.pc;
      s.(db := WithRow(s, i, SetEnded(s.db.rows[i], ModuleFailed, Some(reason), Some(code), 0, false)),
         pc := Checking(i + 1))
    case Store =>
      var Storing(i, result) := s.pc;
      s.(db := s.db.(findings := s.db.findings + Tagged(i, s.db.rows[i].attempts, result.findings)),
         pc := Marking(i, result))
    case Mark =>
      var Marking(i, result) := s.pc;
      s.(db := WithRow(s, i, SetDone(s.db.rows[i], result)), pc := Checking(i + 1))
    case Skip => s.(db := s.db.(rows := AllSkipped(s.db.rows)), pc := Closing(Canceled, CancelSeen))
    case Close => s.(db := s.db.(status := s.pc.status), pc := Ended(s.pc.why))
    case Crash => s.(pc := Dead)
    case Recover => s.(db := s.db.(status := Requeued(s.db.status), rows := AllInterrupted(s.db.rows)))
    case Cancel => s.(db := s.db.(cancel := true))
  }

  function AfterCheck(s: State): Pc
    requires s.pc.Checking? && s.pc.i <= |s.plan|
  {
    if s.db.cancel then Skipping
    else if s.pc.i == |s.plan| then Closing(VerdictOf(s.memory), Finished)
    else if s.plan[s.pc.i] then Entering(s.pc.i)
    else Declining(s.pc.i)
  }

  function AfterBody(s: State, i: nat, outcome: Outcome): State
    requires i < |s.returned|
  {
    match outcome
    case Raised(reason, code) => s.(pc := Failing(i, reason, code), memory := s.memory.(anyProblem := true))
    case Returned(result) =>
      s.(pc := Storing(i, result), memory := AddReturned(s.memory, result), returned := s.returned[i := Some(result)])
  }

  function Run(s: State, steps: seq<Step>): Option<State> {
    if steps == [] then Some(s) else
    match Run(s, steps[..|steps| - 1])
    case None => None
    case Some(before) =>
      if Enabled(before, steps[|steps| - 1]) then Some(Apply(before, steps[|steps| - 1])) else None
  }

  lemma RunOn(init: State, steps: seq<Step>, step: Step)
    requires Run(init, steps).Some? && Enabled(Run(init, steps).value, step)
    ensures Run(init, steps + [step]) == Some(Apply(Run(init, steps).value, step))
  {
    assert (steps + [step])[..|steps|] == steps;
  }

  function Fresh(): Row {
    Row(ModuleQueued, 0, 0, false, None, None)
  }

  /** A scan as it is created. */
  predicate Initial(s: State) {
    && Fits(s)
    && s.pc == Dead
    && s.db.status == Queued && !s.db.cancel && s.db.findings == []
    && (forall j | 0 <= j < |s.plan| :: s.db.rows[j] == Fresh() && s.returned[j] == None)
  }

  lemma StepFits(s: State, step: Step)
    requires Enabled(s, step)
    ensures Fits(Apply(s, step)) && Apply(s, step).plan == s.plan
  {
  }

  lemma {:induction false} RunsFit(init: State, steps: seq<Step>)
    requires Initial(init) && Run(init, steps).Some?
    ensures Fits(Run(init, steps).value) && Run(init, steps).value.plan == init.plan
  {
    if steps != [] {
      RunsFit(init, steps[..|steps| - 1]);
      StepFits(Run(init, steps[..|steps| - 1]).value, steps[|steps| - 1]);
    }
  }

  // ---- every attempt ends ----

  /** An upper bound of the steps an attempt still takes. */
  function Remaining(s: State): nat
    requires Fits(s)
  {
    var n := |s.plan|;
    match s.pc
    case Dead => 0
    case Dispatching => 6 * n + 4
    case Checking(i) => 6 * (n - i) + 3
    case Declining(i) => 6 * (n - i) + 2
    case Entering(i) => 6 * (n - i) + 2
    case InBody(i) => 6 * (n - i) + 1
    case Failing(i, _, _) => 6 * (n - i)
    case Storing(i, _) => 6 * (n - i)
    case Marking(i, _) => 6 * (n - i) - 1
    case Skipping => 2
    case Closing(_, _) => 1
    case Ended(_) => 0
  }

  predicate ByExecutor(step: Step) {
    !step.Claim? && !step.Crash? && !step.Recover? && !step.Cancel?
  }

  /** Whatever the modules return, an executor that is neither dead nor finished has a step, and each of its
      steps brings it closer to the end; a cancel request does not set it back. */
  lemma AttemptsEnd(s: State, step: Step)
    requires Enabled(s, step)
    ensures ByExecutor(step) ==> Remaining(Apply(s, step)) < Remaining(s)
    ensures step.Cancel? ==> Remaining(Apply(s, step)) == Remaining(s)
    ensures Remaining(s) > 0 <==> exists next :: ByExecutor(next) && Enabled(s, next)
  {
    var next := match s.pc
      case Dispatching => Dispatch(true)
      case Checking(_) => Check
      case Declining(_) => Decline
      case Entering(i) => Enter(i)
      case InBody(_) => Body(Raised("", ""))
      case Failing(_, _, _) => Fail
      case Storing(_, _) => Store
      case Marking(_, _) => Mark
      case Skipping => Skip
      case _ => Close;
    assert Remaining(s) > 0 ==> ByExecutor(next) && Enabled(s, next);
  }
}
