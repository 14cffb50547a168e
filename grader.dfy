/**
 * The server-side grader of grader.py: plan generation, validation in two directions
 * and the merge-and-replan alignment check.
 *
 * The external tools (plan.sh, planoptimal.sh, validate.sh, merge.py) are an oracle
 * `Tools` that maps an invocation to what the run leaves behind: how the process ended,
 * the output file it was to write, and the seconds it took. Each method returns, beside
 * its result, the invocations it issued in order, so that "the planner never runs" is
 * a statement about that trace.
 */
module Grader {
  import opened Wrappers
  import opened Text

  const PLANNER := "./plan.sh"
  const OPTIMAL_PLANNER := "./planoptimal.sh"
  /** Extra seconds the process gets before it is killed. */
  const KILL_MARGIN := 5
  /** Seconds allowed for the planner cutting its own search short. */
  const CUTOFF_MARGIN := 3

  const EXECUTED_MARKER := "Plan executed successfully"
  const MERGE_ERROR_MARKER := "Error"
  const NO_SOLUTION_MARKER := "Search stopped without finding a solution"

  const MERGE_EXCEPTION_PREFIX := "merge failed: "
  const MERGE_FAILED := "Merge failed"
  const TIMED_OUT := "Alignment timed out. This may indicate everything is fine."

  /** How a `subprocess.run` call ended: it returned, or it raised (a timeout kill included). */
  datatype ProcessRun =
    | Exited(returnCode: int, stdout: string, stderr: string)
    | Raised(exception: string)

  /** What one tool run leaves behind: the process, its output file if it exists, its duration. */
  datatype ToolRun = ToolRun(process: ProcessRun, output: Option<string>, seconds: int)

  /** The tool runs this module issues, with the texts of the files each one reads. */
  datatype Invocation =
    | Plan(program: string, domain: string, problem: string, timeLimit: string, killAfter: int)
    | Validate(domain: string, problem: string, plan: string, killAfter: int)
    | Merge(referenceDomain: string, referenceProblem: string,
            studentDomain: string, studentProblem: string, killAfter: int)
    | PlanMerged(merge: Invocation, program: string, timeLimit: string, killAfter: int)  // on the theory `merge` wrote

  type Tools = Invocation -> ToolRun

  /** The reference files for one problem; None when the file does not exist. */
  datatype Reference = Reference(domain: Option<string>, problem: Option<string>, plan: Option<string>)

  datatype ReferenceFile = ReferenceDomain | ReferenceProblem | ReferencePlan | MergeScript

  /** The exceptions raised or let through by grader.py. */
  datatype Error =
    | ValueError(message: string)
    | FileNotFoundError(missing: ReferenceFile)
    | ProcessError(exception: string)
    | NameError(name: string)

  /** The dictionary `generate_plan` returns. */
  datatype PlanReport = PlanReport(ok: bool, plan: string, returnCode: int, stdout: string, stderr: string)

  /** One direction of the dictionary `validate_submission` returns. */
  datatype DirectionReport = DirectionReport(ok: bool, returnCode: int, stdout: string, stderr: string)

  datatype ValidationReport = ValidationReport(
    studentPlanOnReference: DirectionReport,
    referencePlanOnStudent: DirectionReport)

  /** The dictionary `check_alignment` returns. */
  datatype AlignmentReport = AlignmentReport(
    alignmentOk: bool,
    misAlignmentPlan: string,
    error: Option<string>,
    mergeLog: string,
    planLog: string,
    timedOut: bool,
    durationSec: int)

  /** The text a log file receives: stdout, then a newline and stderr when stderr is not empty. */
  function LogText(stdout: string, stderr: string): string {
    stdout + (if stderr != "" then "\n" + stderr else "")
  }

  /** The log of a process that returned. */
  function ProcessLog(p: ProcessRun): string
    requires p.Exited?
  {
    LogText(p.stdout, p.stderr)
  }

  /**
   * `generate_plan`: blank inputs are refused before the planner runs; otherwise the planner
   * (the optimal one when asked) runs once with `timeout + 5` seconds before it is killed,
   * and `ok` holds exactly when it left a plan file with a non-whitespace character in it,
   * whatever its return code.
   */
  method GeneratePlan(domainText: Option<string>, problemText: Option<string>, timeout: int, optimal: bool,
                      tools: Tools)
    returns (r: Result<PlanReport, Error>, calls: seq<Invocation>)
    ensures MissingOrBlank(domainText) ==> r == Err(ValueError("domain_text is empty")) && calls == []
    ensures !MissingOrBlank(domainText) && MissingOrBlank(problemText) ==>
      r == Err(ValueError("problem_text is empty")) && calls == []
    ensures !MissingOrBlank(domainText) && !MissingOrBlank(problemText) ==>
      calls == [Plan(if optimal then OPTIMAL_PLANNER else PLANNER, domainText.value, problemText.value,
                     IntToString(timeout), timeout + KILL_MARGIN)]
    ensures calls != [] && tools(calls[0]).process.Raised? ==>
      r == Err(ProcessError(tools(calls[0]).process.exception))
    ensures calls != [] && tools(calls[0]).process.Exited? ==>
      var run := tools(calls[0]);
      && r.Ok?
      && (r.value.ok <==> run.output.Some? && !AllSpace(run.output.value))
      && r.value.plan == OrEmpty(run.output)
      && r.value.returnCode == run.process.returnCode
      && r.value.stdout == run.process.stdout
      && r.value.stderr == run.process.stderr
  {
    var planner := if optimal then OPTIMAL_PLANNER else PLANNER;
    if MissingOrBlank(domainText) {
      return Err(ValueError("domain_text is empty")), [];
    }
    if MissingOrBlank(problemText) {
      return Err(ValueError("problem_text is empty")), [];
    }
    var call := Plan(planner, domainText.value, problemText.value, IntToString(timeout), timeout + KILL_MARGIN);
    calls := [call];
    var run := tools(call);
    match run.process {
      case Raised(e) =>
        r := Err(ProcessError(e));
      case Exited(code, out, err) =>
        var planText := if run.output.Some? then run.output.value else "";
        var ok := run.output.Some? && !IsBlank(planText);
        r := Ok(PlanReport(ok, planText, code, out, err));
    }
  }

  /** The reference has its domain, problem and plan files. */
  predicate Complete(reference: Reference) {
    reference.domain.Some? && reference.problem.Some? && reference.plan.Some?
  }

  /** `d` is the report of one validation direction whose process returned `p`. */
  predicate Reports(d: DirectionReport, p: ProcessRun) {
    && p.Exited?
    && (d.ok <==> Contains(p.stdout, EXECUTED_MARKER))
    && d.returnCode == p.returnCode
    && d.stdout == p.stdout
    && d.stderr == p.stderr
  }

  /**
   * `validate_submission`: a missing reference file raises first (domain, then problem, then
   * plan); otherwise the student plan is validated on the reference files and then, whatever
   * that verdict, the reference plan on the student files. A direction passes exactly when its
   * stdout holds "Plan executed successfully".
   */
  method ValidateSubmission(domainText: Option<string>, problemText: Option<string>, planText: Option<string>,
                            reference: Reference, timeout: int, tools: Tools)
    returns (r: Result<ValidationReport, Error>, calls: seq<Invocation>)
    ensures reference.domain.None? ==> r == Err(FileNotFoundError(ReferenceDomain)) && calls == []
    ensures reference.domain.Some? && reference.problem.None? ==>
      r == Err(FileNotFoundError(ReferenceProblem)) && calls == []
    ensures reference.domain.Some? && reference.problem.Some? && reference.plan.None? ==>
      r == Err(FileNotFoundError(ReferencePlan)) && calls == []
    ensures Complete(reference) ==>
      && 1 <= |calls| <= 2
      && calls[0] == Validate(reference.domain.value, reference.problem.value, OrEmpty(planText), timeout)
      && (|calls| == 2 <==> tools(calls[0]).process.Exited?)
    ensures |calls| == 1 ==> r == Err(ProcessError(tools(calls[0]).process.exception))
    ensures |calls| == 2 ==>
      calls[1] == Validate(OrEmpty(domainText), OrEmpty(problemText), reference.plan.value, timeout)
    ensures |calls| == 2 && tools(calls[1]).process.Raised? ==>
      r == Err(ProcessError(tools(calls[1]).process.exception))
    ensures |calls| == 2 && tools(calls[1]).process.Exited? ==>
      && r.Ok?
      && Reports(r.value.studentPlanOnReference, tools(calls[0]).process)
      && Reports(r.value.referencePlanOnStudent, tools(calls[1]).process)
  {
    if reference.domain.None? {
      return Err(FileNotFoundError(ReferenceDomain)), [];
    }
    if reference.problem.None? {
      return Err(FileNotFoundError(ReferenceProblem)), [];
    }
    if reference.plan.None? {
      return Err(FileNotFoundError(ReferencePlan)), [];
    }
    var first := Validate(reference.domain.value, reference.problem.value, OrEmpty(planText), timeout);
    calls := [first];
    var run1 := tools(first);
    if run1.process.Raised? {
      return Err(ProcessError(run1.process.exception)), calls;
    }
    var ok1 := Contains(run1.process.stdout, EXECUTED_MARKER);
    var second := Validate(OrEmpty(domainText), OrEmpty(problemText), reference.plan.value, timeout);
    calls := calls + [second];
    var run2 := tools(second);
    if run2.process.Raised? {
      return Err(ProcessError(run2.process.exception)), calls;
    }
    var ok2 := Contains(run2.process.stdout, EXECUTED_MARKER);
    r := Ok(ValidationReport(
      DirectionReport(ok1, run1.process.returnCode, run1.process.stdout, run1.process.stderr),
      DirectionReport(ok2, run2.process.returnCode, run2.process.stdout, run2.process.stderr)));
  }

  /**
   * The early exits of `check_alignment` once the merge tool has run: the outcome when merging
   * raised or its log reports an error, None when replanning goes ahead. This is the outcome the
   * code documents for a merge error; as written it raises instead (see MergeStepAsWritten).
   */
  function MergeStep(merge: ProcessRun): (r: Option<AlignmentReport>)
    ensures merge.Raised? ==>
      r == Some(AlignmentReport(false, "", Some(MERGE_EXCEPTION_PREFIX + merge.exception), "", "", false, 0))
    ensures merge.Exited? ==> (r.Some? <==> Contains(ProcessLog(merge), MERGE_ERROR_MARKER))
    ensures merge.Exited? && r.Some? ==>
      r.value == AlignmentReport(false, "", Some(MERGE_FAILED), ProcessLog(merge), "", false, 0)
  {
    match merge
    case Raised(e) =>
      Some(AlignmentReport(false, "", Some(MERGE_EXCEPTION_PREFIX + e), "", "", false, 0))
    case Exited(_, _, _) =>
      var mergeLog := ProcessLog(merge);
      if Contains(mergeLog, MERGE_ERROR_MARKER) then
        Some(AlignmentReport(false, "", Some(MERGE_FAILED), mergeLog, "", false, 0))
      else
        None
  }

  /**
   * The same step as the source is written: the merge-error return builds its dictionary with
   * a `debug_dir` entry that names no variable, so it raises NameError instead. Everywhere else
   * it agrees with MergeStep.
   */
  function MergeStepAsWritten(merge: ProcessRun): (r: Option<Result<AlignmentReport, Error>>)
    ensures merge.Exited? && Contains(ProcessLog(merge), MERGE_ERROR_MARKER) ==>
      r == Some(Err(NameError("debug_dir")))
    ensures !(merge.Exited? && Contains(ProcessLog(merge), MERGE_ERROR_MARKER)) ==>
      (r.None? <==> MergeStep(merge).None?) && (r.Some? ==> r.value == Ok(MergeStep(merge).value))
  {
    match merge
    case Raised(e) =>
      Some(Ok(AlignmentReport(false, "", Some(MERGE_EXCEPTION_PREFIX + e), "", "", false, 0)))
    case Exited(_, _, _) =>
      if Contains(ProcessLog(merge), MERGE_ERROR_MARKER) then Some(Err(NameError("debug_dir"))) else None
  }

  /** A merge whose log reports an error makes the code as written raise where MergeStep reports. */
  lemma {:induction false} MergeErrorRaisesNameError()
    ensures var merge := Exited(1, "Error: predicate mismatch", "");
      && MergeStepAsWritten(merge) == Some(Err(NameError("debug_dir")))
      && MergeStep(merge) == Some(AlignmentReport(false, "", Some(MERGE_FAILED), "Error: predicate mismatch", "", false, 0))
  {
    var merge := Exited(1, "Error: predicate mismatch", "");
    assert ProcessLog(merge) == "Error: predicate mismatch";
    assert Contains(ProcessLog(merge), MERGE_ERROR_MARKER) by {
      assert MERGE_ERROR_MARKER <= ProcessLog(merge);
    }
  }

  /**
   * How `check_alignment` reads the replanning on the merged theory. A run that came within
   * 3 seconds of the timeout is reported as timed out, whatever its log says. Otherwise the
   * theories align exactly when the planner log says the search stopped without a solution,
   * the merged plan (if any) is the misalignment plan, and the merge log is the error exactly
   * when there is neither the marker nor a plan.
   */
  function ReplanOutcome(mergeLog: string, run: ToolRun, timeout: int): (r: AlignmentReport)
    requires run.process.Exited?
    ensures r.mergeLog == mergeLog && r.planLog == ProcessLog(run.process) && r.durationSec == run.seconds
    ensures r.timedOut <==> run.seconds + CUTOFF_MARGIN > timeout
    ensures r.timedOut ==> !r.alignmentOk && r.misAlignmentPlan == "" && r.error == Some(TIMED_OUT)
    ensures !r.timedOut ==>
      && (r.alignmentOk <==> Contains(ProcessLog(run.process), NO_SOLUTION_MARKER))
      && r.misAlignmentPlan == OrEmpty(run.output)
      && (r.error.Some? <==> !r.alignmentOk && run.output.None?)
      && (r.error.Some? ==> r.error.value == mergeLog)
  {
    var planLog := ProcessLog(run.process);
    if run.seconds + CUTOFF_MARGIN > timeout then
      AlignmentReport(false, "", Some(TIMED_OUT), mergeLog, planLog, true, run.seconds)
    else
      var align := Contains(planLog, NO_SOLUTION_MARKER);
      var error := if !(align || run.output.Some?) then Some(mergeLog) else None;
      var misPlan := if run.output.Some? then run.output.value else "";
      AlignmentReport(align, misPlan, error, mergeLog, planLog, false, run.seconds)
  }

  /** Aligned and a misalignment plan are not exclusive: a run can report both. */
  lemma {:induction false} AlignedWithPlan()
    ensures var r := ReplanOutcome("", ToolRun(Exited(0, NO_SOLUTION_MARKER, ""), Some("(stack a b)"), 1), 60);
      r.alignmentOk && r.misAlignmentPlan == "(stack a b)" && r.error.None?
  {
    var run := ToolRun(Exited(0, NO_SOLUTION_MARKER, ""), Some("(stack a b)"), 1);
    assert ProcessLog(run.process) == NO_SOLUTION_MARKER;
    assert Contains(NO_SOLUTION_MARKER, NO_SOLUTION_MARKER) by {
      assert NO_SOLUTION_MARKER <= NO_SOLUTION_MARKER;
    }
  }

  /**
   * `check_alignment`: missing reference files or merge script raise first; then the merge
   * tool runs. When merging raised or its log reports an error the planner never runs;
   * otherwise the planner runs once on the merged theory and ReplanOutcome reads the run.
   * A merge log containing "Error" gives the documented "Merge failed" outcome of MergeStep;
   * the code as written raises NameError there instead (MergeStepAsWritten).
   */
  method CheckAlignment(studentDomain: Option<string>, studentProblem: Option<string>, reference: Reference,
                        mergeScriptPresent: bool, timeout: int, tools: Tools)
    returns (r: Result<AlignmentReport, Error>, calls: seq<Invocation>)
    ensures reference.domain.None? ==> r == Err(FileNotFoundError(ReferenceDomain)) && calls == []
    ensures reference.domain.Some? && reference.problem.None? ==>
      r == Err(FileNotFoundError(ReferenceProblem)) && calls == []
    ensures reference.domain.Some? && reference.problem.Some? && !mergeScriptPresent ==>
      r == Err(FileNotFoundError(MergeScript)) && calls == []
    ensures reference.domain.Some? && reference.problem.Some? && mergeScriptPresent ==>
      && 1 <= |calls| <= 2
      && calls[0] == Merge(reference.domain.value, reference.problem.value,
                           OrEmpty(studentDomain), OrEmpty(studentProblem), timeout)
      && (|calls| == 1 <==> MergeStep(tools(calls[0]).process).Some?)
    ensures |calls| == 1 ==> r == Ok(MergeStep(tools(calls[0]).process).value)
    ensures |calls| == 2 ==>
      && tools(calls[0]).process.Exited?
      && !Contains(ProcessLog(tools(calls[0]).process), MERGE_ERROR_MARKER)
      && calls[1] == PlanMerged(calls[0], PLANNER, IntToString(timeout) + "s", timeout + KILL_MARGIN)
    ensures |calls| == 2 && tools(calls[1]).process.Raised? ==>
      r == Err(ProcessError(tools(calls[1]).process.exception))
    ensures |calls| == 2 && tools(calls[1]).process.Exited? ==>
      r == Ok(ReplanOutcome(ProcessLog(tools(calls[0]).process), tools(calls[1]), timeout))
  {
    if reference.domain.None? {
      return Err(FileNotFoundError(ReferenceDomain)), [];
    }
    if reference.problem.None? {
      return Err(FileNotFoundError(ReferenceProblem)), [];
    }
    if !mergeScriptPresent {
      return Err(FileNotFoundError(MergeScript)), [];
    }
    var merge := Merge(reference.domain.value, reference.problem.value,
                       OrEmpty(studentDomain), OrEmpty(studentProblem), timeout);
    calls := [merge];
    var mergeRun := tools(merge);
    var early := MergeStep(mergeRun.process);
    if early.Some? {
      return Ok(early.value), calls;
    }
    var mergeLog := ProcessLog(mergeRun.process);
    var replan := PlanMerged(merge, PLANNER, IntToString(timeout) + "s", timeout + KILL_MARGIN);
    calls := calls + [replan];
    var planRun := tools(replan);
    if planRun.process.Raised? {
      return Err(ProcessError(planRun.process.exception)), calls;
    }
    r := Ok(ReplanOutcome(mergeLog, planRun, timeout));
  }
}
