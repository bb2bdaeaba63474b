/** Every module row that has ended without success says why, through crashes and further attempts. */
module ScanReasons {
  import opened Wrappers
  import opened Domain
  import opened ScanExecution
  import opened ScanDurability

  /** Message and code of the latest exception of module j. */
  function LatestException(init: State, steps: seq<Step>, j: nat): Option<(string, string)> {
    if steps == [] then None else
    var earlier, last := steps[..|steps| - 1], steps[|steps| - 1];
    match Run(init, earlier)
    case None => None
    case Some(s) =>
      if s.pc == InBody(j) && last.Body? && last.outcome.Raised? then Some((last.outcome.reason, last.outcome.code))
      else LatestException(init, earlier, j)
  }

  /** What row j says about its module, whose latest exception is the given one. */
  predicate SaysWhy(s: State, j: nat, latest: Option<(string, string)>) {
    && Fits(s) && j < |s.plan|
    && var row := s.db.rows[j];
    && (s.pc.Failing? && s.pc.i == j ==> latest == Some((s.pc.reason, s.pc.code)))
    && match row.status
       case ModuleFailed => latest.Some? && row.message == Some(latest.value.0) && row.code == Some(latest.value.1)
       case Interrupted => row.message == Some("the worker stopped before this module finished")
       case Skipped => row.message == Some("the scan was canceled")
       case NotApplicable => row.message == Some("this module does not support the type of the target")
       case _ => true
  }

  /** The warnings of a done module are joined in their order. */
  lemma {:induction false} WarningsAreJoined(warnings: seq<string>, last: string)
    ensures Join([last]) == last
    ensures warnings != [] ==> Join(warnings + [last]) == Join(warnings) + "; " + last
  {
    if |warnings| > 1 {
      WarningsAreJoined(warnings[1..], last);
      assert (warnings + [last])[1..] == warnings[1..] + [last];
      assert warnings[0] + "; " + (Join(warnings[1..]) + "; " + last) == Join(warnings) + "; " + last;
    } else if |warnings| == 1 {
      assert (warnings + [last])[1..] == [last];
    }
  }

  function Later(s: State, step: Step, j: nat, latest: Option<(string, string)>): Option<(string, string)> {
    if s.pc == InBody(j) && step.Body? && step.outcome.Raised? then Some((step.outcome.reason, step.outcome.code))
    else latest
  }

  lemma StepSaysWhy(s: State, step: Step, j: nat, latest: Option<(string, string)>)
    requires SaysWhy(s, j, latest) && RunningFits(s, j) && Enabled(s, step)
    ensures SaysWhy(Apply(s, step), j, Later(s, step, j, latest))
  {
    StepFits(s, step);
  }

  /** After every run: a failed row has message and code of the latest exception of its module, and a row that was
      interrupted, skipped or not applicable has its own message. */
  lemma {:induction false} RowsSayWhy(init: State, steps: seq<Step>, j: nat)
    requires Initial(init) && Run(init, steps).Some? && j < |init.plan|
    ensures SaysWhy(Run(init, steps).value, j, LatestException(init, steps, j))
  {
    if steps != [] {
      var earlier, last := steps[..|steps| - 1], steps[|steps| - 1];
      RowsSayWhy(init, earlier, j);
      RunsKeepPlace(init, earlier, j);
      StepSaysWhy(Run(init, earlier).value, last, j, LatestException(init, earlier, j));
    }
  }
}
