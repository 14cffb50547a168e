# PDDL grading pipeline: decision and aggregation logic

This project models in Dafny the part of the PDDL assignment grader that decides things. The
shell tools it drives (`plan.sh`, `planoptimal.sh`, `validate.sh`, `merge.py`) are not
modelled. Each is an oracle: a function from the invocation to what the run leaves behind.
That is the process outcome or its log, the output file if one was written, and, for the web
grader, the duration in whole seconds. Every method that runs tools also returns the list of
invocations it issued, in order. Statements such as "the planner never runs" or "both
validations always run" are then statements about that list.

- `wrappers.dfy`: `Option`, `Result`, and Python's `x or ""`.
- `text.dfy`: the Python string operations the code relies on.
  - `str.isspace` uses the full Unicode whitespace set.
  - `strip` and `rstrip` are modelled without arguments, as slices between the first and
    past the last non-whitespace character.
  - `text is None or not text.strip()` is defined once, as `MissingOrBlank`.
  - `sub in s` is `Contains`.
  - `splitlines()` uses every Python line boundary, with "\r\n" counted as one.
  - Also `"\n".join` and `str(int)`.
- `grader.dfy`: the web grader of `grader.py`.
  - `generate_plan` gives the plan verdict.
  - `validate_submission` validates in two directions.
  - `check_alignment` classifies the outcome of merge and replan.
- `grade.dfy`: the command-line grader of `grade.py`.
  - `MARK`, `check_solve`, `check_validate` and `check_alignment`.
  - `grade` as four loops that fill the nested result dictionaries.
- `server.dfy`: the request side of `server_test.py`.
  - `_expect_str`.
  - The input checks of `run_grader`, followed by the call to `grade`.
  - `_normalize_plan`, with its shape, fixed-point and idempotence lemmas.
- `variants.dfy`: how the two graders' marker tests relate.
  - `grade.py` is stricter on validation: it also asks for "Plan valid".
  - On alignment, `grade.py` asks for a final period and `grader.py` does not.
  - A concrete log separates the two graders in each case.

`_normalize_plan` keeps interior blank lines. Its comment speaks of collapsing them, but
the code does not do it. The model follows the code: see `Server.InteriorBlankLinesKept`.

`run_grader` writes the submitted plan into the student's marking folder. `grade` deletes that
folder before it starts. As a result, the submitted plan text only takes part in the emptiness
check. The model's report depends only on the shell oracle, which reflects this.

## Model

| member | source | states |
|---|---|---|
| Grader.GeneratePlan | grader.py:135-171 | A None or blank domain raises `ValueError("domain_text is empty")` before any tool runs. Then a None or blank problem raises `ValueError("problem_text is empty")`. Otherwise exactly one run starts: `./planoptimal.sh` iff `optimal`, with the texts, `str(timeout)` and a kill budget of `timeout + 5`. `ok` holds iff the plan file exists and has a non-whitespace character, whatever the return code. `plan` is the file text, or "" when there is none. A raising run propagates. |
| Grader.ValidateSubmission | grader.py:73-133 | A missing reference domain, then problem, then plan raises `FileNotFoundError`, and no tool runs. Otherwise the student plan is validated on the reference files. Then, whatever that verdict, the reference plan is validated on the student files, with missing texts written as "". Each direction's `ok` holds iff its stdout contains "Plan executed successfully". Return code, stdout and stderr are copied. A raising validation propagates. |
| Grader.MergeStep | grader.py:212-243 | A merge that raised yields not aligned, error "merge failed: " followed by the exception, empty logs, not timed out, duration 0. A merge that returned yields an early outcome iff its log (stdout, plus "\n" and stderr when stderr is non-empty) contains "Error". That outcome is not aligned, error "Merge failed", the merge log recorded, an empty plan log, not timed out, duration 0. |
| Grader.MergeStepAsWritten | grader.py:231-243 | As written, a merge log containing "Error" raises `NameError` for `debug_dir` instead of returning. In every other case it agrees with MergeStep. |
| Grader.MergeErrorRaisesNameError | grader.py:233-242 | A merge that exits with log "Error: predicate mismatch" raises `NameError` as written, where MergeStep returns the documented "Merge failed" outcome. |
| Grader.ReplanOutcome | grader.py:256-288 | A run with `seconds + 3 > timeout` is timed out, not aligned, has an empty plan and the timeout message, whatever the planner log says. Otherwise: aligned iff the planner log contains "Search stopped without finding a solution" (no period). The misalignment plan is the merged plan text, or "". The error is the merge log iff the run is neither aligned nor produced a plan file, else None. Both logs and the duration are recorded. |
| Grader.AlignedWithPlan | grader.py:270-288 | Aligned and a non-empty misalignment plan can occur together, with no error. |
| Grader.CheckAlignment | grader.py:173-288 | A missing reference domain, then problem, then merge script raises `FileNotFoundError` before anything runs. Then merge runs once. When MergeStep gives an early outcome, that is the result and the planner never runs. Otherwise `./plan.sh` runs once on the merged theory, with `"<timeout>s"` and a kill budget of `timeout + 5`. A raising planner propagates. Otherwise the result is ReplanOutcome of the merge log and the run. With a merge log containing "Error" this is the documented "Merge failed" outcome; as written the source raises `NameError` there (MergeStepAsWritten). The replan invocation carries the merge invocation whose output it plans on. |
| Grade.Mark | grade.py:15-18 | The mark is "pass" iff the verdict is true, and "fail" iff it is false. |
| Grade.SolveCommand | grade.py:47-53 | `check_solve` runs `planoptimal.sh` iff an optimal plan is asked for, else `plan.sh`, on the given problem. |
| Grade.Dedup | grade.py:80 | The keys of `{p: {} for p in ps}` in iteration order are distinct, and are exactly the members of `ps`. Their order is first-occurrence order (Grade.DedupOrder). |
| Grade.DedupOrder | grade.py:80 | The keys come in the order of their first occurrence in the list, as a Python dictionary keeps them. |
| Grade.CheckSolve | grade.py:47-53 | A problem counts as solved exactly when the planner left a plan file, whatever its log says and even if the file is empty. The planner is SolveCommand's. |
| Grade.ValidateVerdict | grade.py:57-59 | A validation log passes only when it contains both "Plan executed successfully" and "Plan valid". |
| Grade.CheckValidate | grade.py:55-64 | The pair of verdicts: the student plan on the reference files, then the reference plan on the student files. Each is ValidateVerdict of its own log, and both validations always run. |
| Grade.CheckAlignment | grade.py:32-45 | Aligned iff the merged planner log contains "Search stopped without finding a solution." with its period. The plan is the merged-plan file text, else None. The two are read independently, and the merge log is not read. |
| Grade.DedupDistinct | grade.py:80 | For a list without repetitions the dictionary's key order is the list itself. |
| Grade.DefaultProblemsDistinct | grade.py:9-13 | `PROBLEMS` and `PLAN_ONLY_PROBLEMS` are their own key orders. |
| Grade.AlignmentEntryShape | grade.py:80-103 | A problem's final entry has exactly the keys solve, validates1, validates2 and aligns. validates1 is "-" iff solve is "fail". Every other mark is "pass" or "fail". |
| Grade.PlanOnlyEntryShape | grade.py:106-114 | A plan-only entry has exactly the keys solve and plan. solve is the mark of the optimal planner leaving a plan file. plan is that file's text iff solved, else None. |
| Grade.MisAlignmentPlansExact | grade.py:98-102 | After the alignment loop, a problem has a misalignment plan iff its merged plan file exists and is non-empty, and the stored value is that text. |
| Grade.FindPlans | grade.py:80-84 | Every problem, and no other key, gets its solve mark. The planner runs once per problem, in order. |
| Grade.ValidatePlans | grade.py:87-95 | Both validations run for every problem, solved or not, in order. validates1 is the mark of the first direction when the stored solve mark is "pass", else "-". validates2 is always the mark of the second direction. The keys are unchanged. |
| Grade.CheckAlignments | grade.py:97-103 | Every problem gets its aligns mark. `mis_alignment_plans` is exactly MisAlignmentPlans. Merge and replan run once per problem, in order. |
| Grade.FindOptimalPlans | grade.py:105-114 | Every plan-only problem, and no other key, gets its PlanOnlyEntry. The optimal planner runs once per problem, in order. |
| Grade.Grade | grade.py:73-129 | The report covers exactly `problems` in `alignment_results`, each with the four keys, and "-" iff solve is "fail". `mis_alignment_plans` holds exactly the problems whose merged plan is present and non-empty, with that text. `optimal_plan_results` covers exactly the plan-only problems. The command order is: all solves, both validations per problem, merge and replan per problem, then the optimal solves. |
| Server.ExpectStr | server_test.py:194-200 | A missing key or a null gives None, even when the field is required. A string value is returned unchanged, and a present result was a string in the payload. Any other value is rejected with "Field '<key>' must be a string.". |
| Server.ExpectStrIgnoresRequired | server_test.py:194-197 | The `required` flag never changes the outcome. |
| Server.RunGraderInputChecks | server_test.py:140-146 | The first failing check, in this order, gives its error. "Plan file is empty." iff the plan is all whitespace. Then "Domain file is required." iff the domain is None or blank. Then "Problem file is required." likewise for the problem. Accepted input yields the domain and problem texts. |
| Server.RunGrader | server_test.py:136-184 | Rejected input raises the check's error and issues no command at all. Accepted input runs `grade` over `PROBLEMS` and `PLAN_ONLY_PROBLEMS` and returns its whole report: every problem's entry is AlignmentEntry, `mis_alignment_plans` holds exactly the problems whose merged plan is present and non-empty, with that text, and `optimal_plan_results` holds PlanOnlyEntry for exactly the plan-only problems. The command order is that of `grade`. |
| Server.NormalizePlan | server_test.py:202-205 | Right-strip every line that `splitlines` yields, join them with "\n", and strip the whole. Its properties are the next three rows. |
| Server.NormalizeIsNormalized | server_test.py:202-205 | The normalised plan has no whitespace at either end. Every line boundary in it is "\n", and no line ends in whitespace. |
| Server.NormalizedFixed | server_test.py:202-205 | A plan already in that shape is returned unchanged. |
| Server.NormalizeIdempotent | server_test.py:202-205 | Normalising twice is normalising once. |
| Server.InteriorBlankLinesKept | server_test.py:203-205 | Two blank lines between plan steps survive normalisation: nothing is collapsed. |
| Server.SplitJoin | server_test.py:204-205 | Clean-lined text not ending in "\n" is given back by splitting it into lines and joining them with "\n". |
| Text.Strip | server_test.py:141 | `strip()` is empty iff the text is all whitespace. Otherwise it starts and ends with a non-whitespace character. What it removes is stated by StripSlice. |
| Text.StripSlice | server_test.py:205 | `strip()` returns the contiguous piece of its argument that starts at the first non-whitespace character. Everything it cuts off before and after that piece is whitespace. |
| Text.RStrip | server_test.py:204 | `rstrip()` returns a prefix of its argument. What it cuts off is whitespace, and the result ends in a non-whitespace character or is empty. |
| Text.SplitLinesNoBreaks | server_test.py:204 | No line that `splitlines()` yields holds a line boundary. |
| Variants.ValidationStricter | grade.py:55-64 | A log that `check_validate` accepts also passes the single-marker test of `validate_submission`. |
| Variants.ExecutedOnlyLog | grade.py:57-59 | A validation log that reads exactly "Plan executed successfully" passes the single-marker test of `validate_submission` and fails `check_validate`. |
| Variants.ExecutedButNotValid | grade.py:59 | The log "Plan executed successfully" passes `validate_submission` but fails `check_validate`. |
| Variants.AlignmentStricter | grade.py:37 | A planner log that `grade.py` counts as aligned is also aligned for `grader.py`. |
| Variants.AlignedWithoutPeriod | grade.py:37 | The message without its final period is aligned for `grader.py` and not for `grade.py`. |

## Left out

- Temporary folders, file writes and reads, `os.system`, `subprocess.run`, `rm -rf` and `mkdir`, and the `grade.txt` dump. The tools are oracles keyed by the invocation. File existence is an `Option`. The reference files and `merge.py` are present-or-absent inputs.
- What the tools compute. Only the marker strings the code tests for are modelled.
- The text of `FileNotFoundError` messages: the model names the missing file instead of its path. The `subprocess` exception text is carried as a plain string.
- Grader.ReplanOutcome: the duration is whole seconds. The source measures it with `time.time()` as a float, so a run within a fraction of a second of the cutoff may be classified differently.
- Grader.ValidateSubmission: stdout and stderr are strings, since `capture_output=True, text=True` never gives None. `proc.stdout or ""` is therefore the identity here.
- Grade.Grade: `grade` writes into a fresh marking folder per student. The model treats each command's results as fresh, with no stale files from an earlier run.
- Grade.Grade: key order of the JSON dictionaries is not modelled, because Dafny maps are unordered. The command list records the loop order.
- The Flask application: routes, CORS, JSON error handlers, `_bad_request` and `_server_error`. Also `test_grade.py`.
- `_length_penalty`, because it is floating-point arithmetic. The unused `GradeReport` dataclass is left out too.
- The rest of `run_grader`: the directory layout, uuid, file writes and the `finally` cleanup. They are folded into the shell oracle.
- `Grader.__init__`'s `sys.exit`, `gradeall`'s glob, and `main`'s argument parsing.
- The commented-out code in `grader.py`.
- Default arguments: `timeout=30` of `generate_plan`, `timeout=60` of `validate_submission` and `check_alignment`, and `optimal=False`. Every model operation takes these as explicit parameters.
- `run_grader` writes the submitted domain and problem as the reference files too (server_test.py:175-178). In Server.RunGrader the shell oracle therefore stands for a reference that is the student's own theory. The model does not tie the oracle's answers to that.
- Console output of `grade.py`: the "Warning: Alignment failed" message of `check_alignment` (grade.py:38-39) and the progress prints (grade.py:74, 82, 86, 97, 105, 128). They change no result.
- Server.Json: JSON numbers are integers. Only whether a value is a string matters to `_expect_str`.

## Findings

| source | as written | input that shows it | evidently intended | confidence | as-written member | corrected member |
|---|---|---|---|---|---|---|
| grader.py:242 | The "Merge failed" dictionary includes `"debug_dir": str(debug_dir)`, but no `debug_dir` is defined in `check_alignment`, so building it raises `NameError`. | A merge run whose log contains "Error", e.g. stdout "Error: predicate mismatch" | Return the documented "Merge failed" outcome without raising | high (not executed) | Grader.MergeStepAsWritten | Grader.MergeStep |
