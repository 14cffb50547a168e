/**
 * The command-line grader of grade.py: per problem it solves the student's theory, validates
 * in two directions, checks alignment on the merged theory, and for the plan-only problems
 * looks for an optimal plan; `grade` gathers the marks in a nested dictionary.
 *
 * The shell commands (plan.sh, planoptimal.sh, validate.sh, merge.py) are an oracle `Shell`
 * that maps a command to the log it writes and the output file it leaves, if any.
 */
module Grade {
  import opened Wrappers
  import opened Text

  /** The problems whose plans are cross-validated and whose theories are checked for alignment. */
  const PROBLEMS: seq<string> := ["p01", "p02", "p03"]
  /** The problems that only need a plan found. */
  const PLAN_ONLY_PROBLEMS: seq<string> := ["p04"]

  const NOT_APPLICABLE := "-"
  const EXECUTED_MARKER := "Plan executed successfully"
  const VALID_MARKER := "Plan valid"
  const NO_SOLUTION_MARKER := "Search stopped without finding a solution."

  /** The keys of each problem's entry in `alignment_results`. */
  const ENTRY_KEYS: set<string> := {"solve", "validates1", "validates2", "aligns"}

  /** The shell commands `grade` issues for a problem. */
  datatype Command =
    | Solve(script: string, problem: string)    // the planner on the student's domain and problem
    | ValidateStudentPlan(problem: string)      // validate.sh: reference files, the student's plan
    | ValidateReferencePlan(problem: string)    // validate.sh: student's files, the reference plan
    | Merge(problem: string)                    // merge.py on reference and student theories
    | PlanMerged(problem: string)               // plan.sh on the merged theory

  /** What a command leaves behind: its redirected log, and its output file when it exists. */
  datatype ShellRun = ShellRun(log: string, output: Option<string>)

  type Shell = Command -> ShellRun

  /** The dictionary `grade` returns. */
  datatype Report = Report(
    alignmentResults: map<string, map<string, string>>,
    misAlignmentPlans: map<string, string>,
    optimalPlanResults: map<string, map<string, Option<string>>>)

  /** `MARK`: the mark of a verdict. */
  function Mark(b: bool): (m: string)
    ensures m == "pass" <==> b
    ensures m == "fail" <==> !b
  {
    if b then "pass" else "fail"
  }

  /** The command `check_solve` runs: planoptimal.sh exactly when an optimal plan is asked for. */
  function SolveCommand(problem: string, optimal: bool): (c: Command)
    ensures c.Solve? && c.problem == problem
    ensures c.script == "planoptimal.sh" <==> optimal
    ensures c.script == "plan.sh" <==> !optimal
  {
    Solve(if optimal then "planoptimal.sh" else "plan.sh", problem)
  }

  /** `check_solve`: the planner left a plan file. */
  function CheckSolve(shell: Shell, problem: string, optimal: bool): bool {
    shell(SolveCommand(problem, optimal)).output.Some?
  }

  /** The verdict `check_validate` reads from one validation log. */
  predicate ValidateVerdict(log: string) {
    Contains(log, EXECUTED_MARKER) && Contains(log, VALID_MARKER)
  }

  /** `check_validate`: the verdicts of both directions; both validations always run. */
  function CheckValidate(shell: Shell, problem: string): (bool, bool) {
    (ValidateVerdict(shell(ValidateStudentPlan(problem)).log),
     ValidateVerdict(shell(ValidateReferencePlan(problem)).log))
  }

  /**
   * `check_alignment`: aligned when the merged planner log says the search stopped without a
   * solution, and the merged plan file when one exists; the two are read independently.
   */
  function CheckAlignment(shell: Shell, problem: string): (bool, Option<string>) {
    var run := shell(PlanMerged(problem));
    (Contains(run.log, NO_SOLUTION_MARKER), run.output)
  }

  /** Python truthiness of an optional string: present and not empty. */
  predicate Truthy(s: Option<string>) {
    s.Some? && s.value != ""
  }

  /** The first loop's update of a problem's entry: its solve mark. */
  function WithSolve(entry: map<string, string>, solved: bool): map<string, string> {
    entry["solve" := Mark(solved)]
  }

  /**
   * The second loop's update: validates1 is the mark of the first direction when the stored
   * solve mark is "pass" and "-" otherwise; validates2 is always the second direction's mark.
   */
  function WithValidation(entry: map<string, string>, valid1: bool, valid2: bool): map<string, string>
    requires "solve" in entry
  {
    if entry["solve"] == Mark(true) then entry["validates1" := Mark(valid1)]["validates2" := Mark(valid2)]
    else entry["validates1" := NOT_APPLICABLE]["validates2" := Mark(valid2)]
  }

  /** The third loop's update: the aligns mark. */
  function WithAlignment(entry: map<string, string>, align: bool): map<string, string> {
    entry["aligns" := Mark(align)]
  }

  /** A problem's entry once the solve loop has run. */
  function SolveEntry(shell: Shell, p: string): map<string, string> {
    WithSolve(map[], CheckSolve(shell, p, false))
  }

  /** A problem's entry once the validation loop has run. */
  function ValidateEntry(shell: Shell, p: string): map<string, string> {
    WithValidation(SolveEntry(shell, p), CheckValidate(shell, p).0, CheckValidate(shell, p).1)
  }

  /** A problem's final entry in `alignment_results`. */
  function AlignmentEntry(shell: Shell, p: string): map<string, string> {
    WithAlignment(ValidateEntry(shell, p), CheckAlignment(shell, p).0)
  }

  /** The fourth loop's entry for a plan-only problem: its solve mark and the plan, if solved. */
  function WithOptimalPlan(solved: bool, plan: Option<string>): map<string, Option<string>> {
    map["solve" := Some(Mark(solved))]["plan" := if solved then plan else None]
  }

  /** A plan-only problem's entry in `optimal_plan_results`. */
  function PlanOnlyEntry(shell: Shell, q: string): map<string, Option<string>> {
    var run := shell(SolveCommand(q, true));
    WithOptimalPlan(run.output.Some?, run.output)
  }

  /**
   * Every alignment entry has exactly the four keys; every mark is "pass" or "fail", except
   * that validates1 is "-" exactly when the problem was not solved.
   */
  lemma {:induction false} AlignmentEntryShape(shell: Shell, p: string)
    ensures var e := AlignmentEntry(shell, p);
      && e.Keys == ENTRY_KEYS
      && (e["validates1"] == NOT_APPLICABLE <==> e["solve"] == "fail")
      && e["validates1"] in {"pass", "fail", NOT_APPLICABLE}
      && e["solve"] in {"pass", "fail"} && e["validates2"] in {"pass", "fail"} && e["aligns"] in {"pass", "fail"}
  {
  }

  /**
   * A plan-only entry records the solve mark, and the plan file's text exactly when the
   * problem was solved.
   */
  lemma {:induction false} PlanOnlyEntryShape(shell: Shell, q: string)
    ensures var e := PlanOnlyEntry(shell, q);
      && e.Keys == {"solve", "plan"}
      && e["solve"] == Some(Mark(CheckSolve(shell, q, true)))
      && (e["plan"].Some? <==> e["solve"] == Some("pass"))
      && (e["plan"].Some? ==> e["plan"] == shell(SolveCommand(q, true)).output)
  {
  }

  /** The commands of the solve loop, problem by problem. */
  function SolveCommands(ps: seq<string>, optimal: bool): seq<Command>
    decreases |ps|
  {
    if ps == [] then [] else SolveCommands(ps[..|ps| - 1], optimal) + [SolveCommand(ps[|ps| - 1], optimal)]
  }

  /** The commands of the validation loop: both directions for every problem. */
  function ValidateCommands(ps: seq<string>): seq<Command>
    decreases |ps|
  {
    if ps == [] then []
    else ValidateCommands(ps[..|ps| - 1]) + [ValidateStudentPlan(ps[|ps| - 1]), ValidateReferencePlan(ps[|ps| - 1])]
  }

  /** The commands of the alignment loop: merge, then plan on the merged theory. */
  function AlignCommands(ps: seq<string>): seq<Command>
    decreases |ps|
  {
    if ps == [] then []
    else AlignCommands(ps[..|ps| - 1]) + [Merge(ps[|ps| - 1]), PlanMerged(ps[|ps| - 1])]
  }

  /** One more problem adds its solve command to the trace. */
  lemma {:induction false} SolveCommandsStep(ps: seq<string>, i: nat, optimal: bool)
    requires i < |ps|
    ensures SolveCommands(ps[..i + 1], optimal) == SolveCommands(ps[..i], optimal) + [SolveCommand(ps[i], optimal)]
  {
    assert ps[..i + 1][..i] == ps[..i];
  }

  /** One more problem adds its two validations to the trace. */
  lemma {:induction false} ValidateCommandsStep(ps: seq<string>, i: nat)
    requires i < |ps|
    ensures ValidateCommands(ps[..i + 1]) == ValidateCommands(ps[..i]) + [ValidateStudentPlan(ps[i]), ValidateReferencePlan(ps[i])]
  {
    assert ps[..i + 1][..i] == ps[..i];
  }

  /** One more problem adds its merge and its replan to the trace. */
  lemma {:induction false} AlignCommandsStep(ps: seq<string>, i: nat)
    requires i < |ps|
    ensures AlignCommands(ps[..i + 1]) == AlignCommands(ps[..i]) + [Merge(ps[i]), PlanMerged(ps[i])]
  {
    assert ps[..i + 1][..i] == ps[..i];
  }

  /** The members of a prefix grown by one element; in a distinct list that element is new. */
  lemma {:induction false} PrefixStep(ps: seq<string>, i: nat)
    requires i < |ps|
    ensures forall x :: x in ps[..i + 1] <==> x in ps[..i] || x == ps[i]
    ensures Distinct(ps) ==> ps[i] !in ps[..i]
  {
    assert ps[..i + 1] == ps[..i] + [ps[i]];
  }

  /** `mis_alignment_plans` after the alignment loop has run over `ps`. */
  function MisAlignmentPlans(shell: Shell, ps: seq<string>): map<string, string>
    decreases |ps|
  {
    if ps == [] then map[]
    else
      var plans := MisAlignmentPlans(shell, ps[..|ps| - 1]);
      var plan := CheckAlignment(shell, ps[|ps| - 1]).1;
      if Truthy(plan) then plans[ps[|ps| - 1] := plan.value] else plans
  }

  /** One more problem records its merged plan when that plan is non-empty. */
  lemma {:induction false} MisAlignmentPlansStep(shell: Shell, ps: seq<string>, i: nat)
    requires i < |ps|
    ensures MisAlignmentPlans(shell, ps[..i + 1]) ==
      if Truthy(CheckAlignment(shell, ps[i]).1)
      then MisAlignmentPlans(shell, ps[..i])[ps[i] := CheckAlignment(shell, ps[i]).1.value]
      else MisAlignmentPlans(shell, ps[..i])
  {
    assert ps[..i + 1][..i] == ps[..i];
  }

  /**
   * A problem has a misalignment plan exactly when its merged plan is present and
   * non-empty, and the recorded plan is that text.
   */
  lemma {:induction false} MisAlignmentPlansExact(shell: Shell, ps: seq<string>)
    ensures forall p :: p in MisAlignmentPlans(shell, ps) <==> p in ps && Truthy(CheckAlignment(shell, p).1)
    ensures forall p :: p in MisAlignmentPlans(shell, ps) ==> Some(MisAlignmentPlans(shell, ps)[p]) == CheckAlignment(shell, p).1
    decreases |ps|
  {
    if ps != [] {
      var init := ps[..|ps| - 1];
      MisAlignmentPlansExact(shell, init);
      assert ps == init + [ps[|ps| - 1]];
    }
  }

  /** No problem is listed twice. */
  predicate Distinct(ps: seq<string>) {
    forall i, j :: 0 <= i < j < |ps| ==> ps[i] != ps[j]
  }

  /**
   * The keys of `{p: {} for p in ps}` in iteration order: every problem once, at its first
   * occurrence.
   */
  function Dedup(ps: seq<string>): (keys: seq<string>)
    ensures Distinct(keys)
    ensures forall x :: x in keys <==> x in ps
    ensures |keys| <= |ps|
    decreases |ps|
  {
    if ps == [] then []
    else
      var d := Dedup(ps[..|ps| - 1]);
      var x := ps[|ps| - 1];
      assert ps == ps[..|ps| - 1] + [x];
      if x in d then d else d + [x]
  }

  /** The index of the first occurrence of `x` in `ps`. */
  function IndexOf(ps: seq<string>, x: string): (i: nat)
    requires x in ps
    ensures i < |ps| && ps[i] == x
    ensures forall k :: 0 <= k < i ==> ps[k] != x
    decreases |ps|
  {
    if ps[0] == x then 0 else 1 + IndexOf(ps[1..], x)
  }

  /** Appending an element leaves the first occurrence of an earlier element where it was. */
  lemma {:induction false} IndexPrefix(ps: seq<string>, x: string, y: string)
    requires y in ps
    ensures IndexOf(ps + [x], y) == IndexOf(ps, y)
  {
    assert forall k :: 0 <= k < |ps| ==> (ps + [x])[k] == ps[k];
  }

  /** A new element's first occurrence is where it is appended. */
  lemma {:induction false} IndexAppended(ps: seq<string>, x: string)
    requires x !in ps
    ensures IndexOf(ps + [x], x) == |ps|
  {
    assert forall k :: 0 <= k < |ps| ==> (ps + [x])[k] == ps[k];
  }

  /**
   * The keys of `{p: {} for p in ps}` come in the order of their first occurrence in `ps`,
   * which is the order a Python dictionary keeps.
   */
  lemma {:induction false} DedupOrder(ps: seq<string>)
    ensures forall i, j :: 0 <= i < j < |Dedup(ps)| ==> IndexOf(ps, Dedup(ps)[i]) < IndexOf(ps, Dedup(ps)[j])
    decreases |ps|
  {
    if ps != [] {
      var init, x := ps[..|ps| - 1], ps[|ps| - 1];
      assert ps == init + [x];
      var d := Dedup(init);
      DedupOrder(init);
      forall y | y in d
        ensures IndexOf(ps, y) == IndexOf(init, y) && IndexOf(init, y) < |init|
      {
        IndexPrefix(init, x, y);
      }
      if x !in d {
        IndexAppended(init, x);
        var keys := Dedup(ps);
        assert keys == d + [x];
        forall i, j | 0 <= i < j < |keys|
          ensures IndexOf(ps, keys[i]) < IndexOf(ps, keys[j])
        {
          assert keys[i] == d[i] && keys[i] in d;
          if j < |d| {
            assert keys[j] == d[j] && keys[j] in d;
          }
        }
      }
    }
  }

  /** A list without repetitions is its own key order. */
  lemma {:induction false} DedupDistinct(ps: seq<string>)
    requires Distinct(ps)
    ensures Dedup(ps) == ps
    decreases |ps|
  {
    if ps != [] {
      var init := ps[..|ps| - 1];
      assert Distinct(init);
      DedupDistinct(init);
      assert ps[|ps| - 1] !in init;
      assert ps == init + [ps[|ps| - 1]];
    }
  }

  /** The default PROBLEMS and PLAN_ONLY_PROBLEMS lists have no repetitions, so they are their own key order. */
  lemma {:induction false} DefaultProblemsDistinct()
    ensures Dedup(PROBLEMS) == PROBLEMS && Dedup(PLAN_ONLY_PROBLEMS) == PLAN_ONLY_PROBLEMS
  {
    DedupDistinct(PROBLEMS);
    DedupDistinct(PLAN_ONLY_PROBLEMS);
  }

  /** The first loop of `grade` ("finding plans"): a solve mark for every problem. */
  method FindPlans(problems: seq<string>, shell: Shell)
    returns (results: map<string, map<string, string>>, calls: seq<Command>)
    requires Distinct(problems)
    ensures forall p :: p in results <==> p in problems
    ensures forall p :: p in results ==> results[p] == SolveEntry(shell, p)
    ensures calls == SolveCommands(problems, false)
  {
    results := map p | p in problems :: map[];
    calls := [];
    var i := 0;
    while i < |problems|
      invariant 0 <= i <= |problems|
      invariant forall p :: p in results <==> p in problems
      invariant forall p :: p in results ==> results[p] == if p in problems[..i] then SolveEntry(shell, p) else map[]
      invariant calls == SolveCommands(problems[..i], false)
    {
      var p := problems[i];
      var solved := CheckSolve(shell, p, false);
      calls := calls + [SolveCommand(p, false)];
      results := results[p := WithSolve(results[p], solved)];
      SolveCommandsStep(problems, i, false);
      PrefixStep(problems, i);
      i := i + 1;
    }
    assert problems[..i] == problems;
  }

  /**
   * The second loop ("validating plans"): both validations run for every problem; validates1
   * is recorded only when the stored solve mark is "pass", and is "-" otherwise.
   */
  method ValidatePlans(problems: seq<string>, solved: map<string, map<string, string>>, shell: Shell)
    returns (results: map<string, map<string, string>>, calls: seq<Command>)
    requires Distinct(problems)
    requires forall p :: p in solved <==> p in problems
    requires forall p :: p in solved ==> "solve" in solved[p]
    ensures forall p :: p in results <==> p in problems
    ensures forall p :: p in results ==>
      results[p] == WithValidation(solved[p], CheckValidate(shell, p).0, CheckValidate(shell, p).1)
    ensures calls == ValidateCommands(problems)
  {
    results := solved;
    calls := [];
    var i := 0;
    while i < |problems|
      invariant 0 <= i <= |problems|
      invariant forall p :: p in results <==> p in problems
      invariant forall p :: p in results ==>
        results[p] == if p in problems[..i]
          then WithValidation(solved[p], CheckValidate(shell, p).0, CheckValidate(shell, p).1)
          else solved[p]
      invariant calls == ValidateCommands(problems[..i])
    {
      var p := problems[i];
      var (valid1, valid2) := CheckValidate(shell, p);
      calls := calls + [ValidateStudentPlan(p), ValidateReferencePlan(p)];
      results := results[p := WithValidation(results[p], valid1, valid2)];
      ValidateCommandsStep(problems, i);
      PrefixStep(problems, i);
      i := i + 1;
    }
    assert problems[..i] == problems;
  }

  /**
   * The alignment loop's state after the problems in `done`: every problem keeps its key,
   * and exactly those in `done` carry their aligns mark.
   */
  ghost predicate AlignedUpTo(results: map<string, map<string, string>>, validated: map<string, map<string, string>>,
                        shell: Shell, problems: seq<string>, done: seq<string>)
  {
    && (forall p :: p in results <==> p in problems)
    && (forall p :: p in results && p in validated ==>
          results[p] == if p in done then WithAlignment(validated[p], CheckAlignment(shell, p).0) else validated[p])
  }

  /** Recording the aligns mark of the next problem extends the aligned prefix by one. */
  lemma {:induction false} AlignedStep(results: map<string, map<string, string>>, validated: map<string, map<string, string>>,
                                       shell: Shell, problems: seq<string>, i: nat)
    requires Distinct(problems) && i < |problems|
    requires AlignedUpTo(results, validated, shell, problems, problems[..i])
    ensures var p := problems[i];
      AlignedUpTo(results[p := WithAlignment(results[p], CheckAlignment(shell, p).0)], validated, shell, problems, problems[..i + 1])
  {
    PrefixStep(problems, i);
  }

  /**
   * The third loop ("checking theory alignments"): an aligns mark for every problem, and the
   * merged plan recorded exactly for the problems where it is non-empty.
   */
  method CheckAlignments(problems: seq<string>, validated: map<string, map<string, string>>, shell: Shell)
    returns (results: map<string, map<string, string>>, misPlans: map<string, string>, calls: seq<Command>)
    requires Distinct(problems)
    requires forall p :: p in validated <==> p in problems
    ensures AlignedUpTo(results, validated, shell, problems, problems)
    ensures misPlans == MisAlignmentPlans(shell, problems)
    ensures calls == AlignCommands(problems)
  {
    results := validated;
    misPlans := map[];
    calls := [];
    var i := 0;
    while i < |problems|
      invariant 0 <= i <= |problems|
      invariant AlignedUpTo(results, validated, shell, problems, problems[..i])
      invariant misPlans == MisAlignmentPlans(shell, problems[..i])
      invariant calls == AlignCommands(problems[..i])
    {
      var p := problems[i];
      var outcome := CheckAlignment(shell, p);
      var align := outcome.0;
      var plan := outcome.1;
      calls := calls + [Merge(p), PlanMerged(p)];
      MisAlignmentPlansStep(shell, problems, i);
      if Truthy(plan) {
        misPlans := misPlans[p := plan.value];
      }
      AlignedStep(results, validated, shell, problems, i);
      results := results[p := WithAlignment(results[p], align)];
      AlignCommandsStep(problems, i);
      i := i + 1;
    }
    assert problems[..i] == problems;
  }

  /**
   * The fourth loop ("checking for optimal plans"): for every plan-only problem the solve mark
   * of the optimal planner, and the plan file's text when it solved the problem, else None.
   */
  method FindOptimalPlans(planOnly: seq<string>, shell: Shell)
    returns (optimal: map<string, map<string, Option<string>>>, calls: seq<Command>)
    requires Distinct(planOnly)
    ensures forall q :: q in optimal <==> q in planOnly
    ensures forall q :: q in optimal ==> optimal[q] == PlanOnlyEntry(shell, q)
    ensures calls == SolveCommands(planOnly, true)
  {
    optimal := map q | q in planOnly :: map[];
    calls := [];
    var i := 0;
    while i < |planOnly|
      invariant 0 <= i <= |planOnly|
      invariant forall q :: q in optimal <==> q in planOnly
      invariant forall q :: q in optimal ==> optimal[q] == if q in planOnly[..i] then PlanOnlyEntry(shell, q) else map[]
      invariant calls == SolveCommands(planOnly[..i], true)
    {
      var q := planOnly[i];
      var run := shell(SolveCommand(q, true));
      var solved := run.output.Some?;
      calls := calls + [SolveCommand(q, true)];
      optimal := optimal[q := WithOptimalPlan(solved, run.output)];
      SolveCommandsStep(planOnly, i, true);
      PrefixStep(planOnly, i);
      i := i + 1;
    }
    assert planOnly[..i] == planOnly;
  }

  /**
   * `grade`: the four loops in order fill the report, each iterating over its dictionary's
   * keys. Every problem gets exactly the four keys and its entry is AlignmentEntry; a
   * misalignment plan is recorded exactly for the problems whose merged plan is non-empty;
   * every plan-only problem gets PlanOnlyEntry. The commands run in loop order: all solves,
   * both validations per problem (solved or not), merge and replan per problem, then the
   * optimal solves.
   */
  method Grade(problems: seq<string>, planOnly: seq<string>, shell: Shell)
    returns (report: Report, calls: seq<Command>)
    ensures forall p :: p in report.alignmentResults <==> p in problems
    ensures forall p :: p in report.alignmentResults ==>
      report.alignmentResults[p] == AlignmentEntry(shell, p) && report.alignmentResults[p].Keys == ENTRY_KEYS
    ensures forall p :: p in report.alignmentResults ==>
      (report.alignmentResults[p]["validates1"] == NOT_APPLICABLE <==> report.alignmentResults[p]["solve"] == "fail")
    ensures forall p :: p in report.misAlignmentPlans <==> p in problems && Truthy(CheckAlignment(shell, p).1)
    ensures forall p :: p in report.misAlignmentPlans ==>
      Some(report.misAlignmentPlans[p]) == CheckAlignment(shell, p).1
    ensures forall q :: q in report.optimalPlanResults <==> q in planOnly
    ensures forall q :: q in report.optimalPlanResults ==> report.optimalPlanResults[q] == PlanOnlyEntry(shell, q)
    ensures var keys := Dedup(problems);
      calls == SolveCommands(keys, false) + ValidateCommands(keys) + AlignCommands(keys)
               + SolveCommands(Dedup(planOnly), true)
  {
    var keys := Dedup(problems);
    var solved, solveCalls := FindPlans(keys, shell);
    var validated, validateCalls := ValidatePlans(keys, solved, shell);
    var results, misPlans, alignCalls := CheckAlignments(keys, validated, shell);
    var optimal, optimalCalls := FindOptimalPlans(Dedup(planOnly), shell);
    report := Report(results, misPlans, optimal);
    calls := solveCalls + validateCalls + alignCalls + optimalCalls;
    MisAlignmentPlansExact(shell, keys);
    forall p | p in report.alignmentResults
      ensures report.alignmentResults[p] == AlignmentEntry(shell, p)
      ensures report.alignmentResults[p].Keys == ENTRY_KEYS
      ensures report.alignmentResults[p]["validates1"] == NOT_APPLICABLE <==> report.alignmentResults[p]["solve"] == "fail"
    {
      AlignmentEntryShape(shell, p);
    }
  }
}
