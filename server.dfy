/**
 * The request side of the web front end (server_test.py): reading string fields out of a
 * JSON payload, the input checks `run_grader` makes before it does any work, and the plan
 * normalisation helper.
 */
module Server {
  import opened Wrappers
  import opened Text
  import Grade

  /** The exception raised for input the student got wrong; it carries its message. */
  datatype StudentInputError = StudentInputError(message: string)

  /** A decoded JSON value (numbers are kept as integers: only their not being a string matters here). */
  datatype Json =
    | JNull
    | JBool(b: bool)
    | JNumber(n: int)
    | JString(s: string)
    | JArray(items: seq<Json>)
    | JObject(fields: map<string, Json>)

  /**
   * `_expect_str`: a missing key and an explicit null both give None (whether or not the
   * field is required); a string is returned unchanged; any other value is rejected with a
   * message naming the key.
   */
  function ExpectStr(obj: map<string, Json>, key: string, required: bool): (r: Result<Option<string>, StudentInputError>)
    ensures r == Ok(None) <==> key !in obj || obj[key] == JNull
    ensures (r.Ok? && r.value.Some?) <==> key in obj && obj[key].JString?
    ensures r.Ok? && r.value.Some? ==> obj[key] == JString(r.value.value)
    ensures r.Err? ==> r.error == StudentInputError("Field '" + key + "' must be a string.")
  {
    var val := if key in obj then obj[key] else JNull;
    if val == JNull then Ok(None)
    else if !val.JString? then Err(StudentInputError("Field '" + key + "' must be a string."))
    else Ok(Some(val.s))
  }

  /** The `required` flag changes nothing: a required field may still be absent. */
  lemma {:induction false} ExpectStrIgnoresRequired(obj: map<string, Json>, key: string)
    ensures ExpectStr(obj, key, true) == ExpectStr(obj, key, false)
    ensures key !in obj ==> ExpectStr(obj, key, true) == Ok(None)
  {
  }

  /**
   * The input checks at the top of `run_grader`, in order: a plan without any
   * non-whitespace character, then a missing or blank domain, then a missing or blank
   * problem. Accepted input yields the domain and problem texts.
   */
  function RunGraderInputChecks(plan: string, domain: Option<string>, problem: Option<string>)
    : (r: Result<(string, string), StudentInputError>)
    ensures r == Err(StudentInputError("Plan file is empty.")) <==> AllSpace(plan)
    ensures r == Err(StudentInputError("Domain file is required.")) <==>
      !AllSpace(plan) && (domain.None? || AllSpace(domain.value))
    ensures r == Err(StudentInputError("Problem file is required.")) <==>
      !AllSpace(plan) && domain.Some? && !AllSpace(domain.value) && (problem.None? || AllSpace(problem.value))
    ensures r.Ok? <==> !AllSpace(plan) && domain.Some? && !AllSpace(domain.value) && problem.Some? && !AllSpace(problem.value)
    ensures r.Ok? ==> r.value == (domain.value, problem.value)
  {
    var lines := SplitLines(Strip(plan));
    if |lines| == 0 then Err(StudentInputError("Plan file is empty."))
    else if MissingOrBlank(domain) then Err(StudentInputError("Domain file is required."))
    else if MissingOrBlank(problem) then Err(StudentInputError("Problem file is required."))
    else Ok((domain.value, problem.value))
  }

  /**
   * `run_grader`: the input checks come first, and a rejected request issues no command at
   * all; an accepted one runs `grade` over the default problem lists and returns its whole
   * report: entries, misalignment plans and optimal-plan results. The temporary
   * directory it lays out is the state the shell oracle reads.
   */
  method RunGrader(plan: string, domain: Option<string>, problem: Option<string>, shell: Grade.Shell)
    returns (r: Result<Grade.Report, StudentInputError>, calls: seq<Grade.Command>)
    ensures r.Err? <==> RunGraderInputChecks(plan, domain, problem).Err?
    ensures r.Err? ==> r.error == RunGraderInputChecks(plan, domain, problem).error && calls == []
    ensures r.Ok? ==> forall p :: p in r.value.alignmentResults <==> p in Grade.PROBLEMS
    ensures r.Ok? ==> forall p :: p in r.value.alignmentResults ==> r.value.alignmentResults[p] == Grade.AlignmentEntry(shell, p)
    ensures r.Ok? ==> forall p :: p in r.value.misAlignmentPlans <==>
      p in Grade.PROBLEMS && Grade.Truthy(Grade.CheckAlignment(shell, p).1)
    ensures r.Ok? ==> forall p :: p in r.value.misAlignmentPlans ==>
      Some(r.value.misAlignmentPlans[p]) == Grade.CheckAlignment(shell, p).1
    ensures r.Ok? ==> forall q :: q in r.value.optimalPlanResults <==> q in Grade.PLAN_ONLY_PROBLEMS
    ensures r.Ok? ==> forall q :: q in r.value.optimalPlanResults ==>
      r.value.optimalPlanResults[q] == Grade.PlanOnlyEntry(shell, q)
    ensures r.Ok? ==> calls == Grade.SolveCommands(Grade.PROBLEMS, false) + Grade.ValidateCommands(Grade.PROBLEMS)
                               + Grade.AlignCommands(Grade.PROBLEMS) + Grade.SolveCommands(Grade.PLAN_ONLY_PROBLEMS, true)
  {
    var checked := RunGraderInputChecks(plan, domain, problem);
    if checked.Err? {
      return Err(checked.error), [];
    }
    Grade.DefaultProblemsDistinct();
    var report;
    report, calls := Grade.Grade(Grade.PROBLEMS, Grade.PLAN_ONLY_PROBLEMS, shell);
    r := Ok(report);
  }

  /** `[ln.rstrip() for ln in lines]`. */
  function RStripLines(lines: seq<string>): (r: seq<string>)
    ensures |r| == |lines|
    ensures forall k :: 0 <= k < |lines| ==> r[k] == RStrip(lines[k])
    decreases |lines|
  {
    if lines == [] then [] else [RStrip(lines[0])] + RStripLines(lines[1..])
  }

  /** `_normalize_plan`: right-strip every line, join the lines with "\n", strip the whole. */
  function NormalizePlan(plan: string): string {
    Strip(JoinLines(RStripLines(SplitLines(plan))))
  }

  /**
   * Every line boundary is "\n", and no line ends in whitespace: the character before a
   * "\n" is another "\n" (an empty line) or not whitespace.
   */
  predicate CleanLines(y: string) {
    && (forall i :: 0 <= i < |y| && IsLineBreak(y[i]) ==> y[i] == '\n')
    && (forall i :: 0 < i < |y| && y[i] == '\n' ==> y[i - 1] == '\n' || !IsSpace(y[i - 1]))
  }

  /** The shape of a normalised plan: clean lines and no whitespace at either end. */
  predicate Normalized(y: string) {
    && (y == [] || (!IsSpace(y[0]) && !IsSpace(y[|y| - 1])))
    && CleanLines(y)
  }

  /** Any slice of text with clean lines has clean lines. */
  lemma {:induction false} CleanLinesSlice(y: string, a: nat, b: nat)
    requires CleanLines(y) && a <= b <= |y|
    ensures CleanLines(y[a..b])
  {
    var z := y[a..b];
    forall i | 0 < i < |z| && z[i] == '\n'
      ensures z[i - 1] == '\n' || !IsSpace(z[i - 1])
    {
      assert z[i] == y[a + i] && z[i - 1] == y[a + i - 1];
    }
  }

  /** No line holds a line boundary. */
  predicate BareLines(lines: seq<string>) {
    forall k, j :: 0 <= k < |lines| && 0 <= j < |lines[k]| ==> !IsLineBreak(lines[k][j])
  }

  /** No line ends in whitespace. */
  predicate TrimmedLines(lines: seq<string>) {
    forall k :: 0 <= k < |lines| && lines[k] != [] ==> !IsSpace(lines[k][|lines[k]| - 1])
  }

  /** A bare, trimmed line, a "\n" and clean-lined text make clean-lined text. */
  lemma {:induction false} CleanLinesCons(head: string, rest: string)
    requires forall j :: 0 <= j < |head| ==> !IsLineBreak(head[j])
    requires head == [] || !IsSpace(head[|head| - 1])
    requires CleanLines(rest)
    ensures CleanLines(head + "\n" + rest)
  {
    var y := head + "\n" + rest;
    forall i | 0 <= i < |y| && IsLineBreak(y[i])
      ensures y[i] == '\n'
    {
      if i > |head| {
        assert y[i] == rest[i - |head| - 1];
      }
    }
    forall i | 0 < i < |y| && y[i] == '\n'
      ensures y[i - 1] == '\n' || !IsSpace(y[i - 1])
    {
      if i > |head| + 1 {
        assert y[i] == rest[i - |head| - 1] && y[i - 1] == rest[i - |head| - 2];
      } else if i == |head| + 1 {
        assert y[i - 1] == '\n';
      } else if i == |head| {
        assert y[i - 1] == head[|head| - 1];
      }
    }
  }

  /** Joining bare, trimmed lines with "\n" gives clean-lined text. */
  lemma {:induction false} JoinCleanLines(lines: seq<string>)
    requires BareLines(lines) && TrimmedLines(lines)
    ensures CleanLines(JoinLines(lines))
    decreases |lines|
  {
    if |lines| == 1 {
      assert JoinLines(lines) == lines[0];
      assert forall j :: 0 <= j < |lines[0]| ==> !IsLineBreak(lines[0][j]);
    } else if |lines| > 1 {
      var tail := lines[1..];
      assert BareLines(tail) by {
        forall k, j | 0 <= k < |tail| && 0 <= j < |tail[k]|
          ensures !IsLineBreak(tail[k][j])
        {
          assert tail[k] == lines[k + 1];
        }
      }
      assert TrimmedLines(tail) by {
        forall k | 0 <= k < |tail| && tail[k] != []
          ensures !IsSpace(tail[k][|tail[k]| - 1])
        {
          assert tail[k] == lines[k + 1];
        }
      }
      JoinCleanLines(tail);
      assert forall j :: 0 <= j < |lines[0]| ==> !IsLineBreak(lines[0][j]);
      CleanLinesCons(lines[0], JoinLines(tail));
    }
  }

  /** A slice of clean-lined text that starts and ends with a non-space is normalised. */
  lemma {:induction false} NormalizedSlice(y: string, a: nat, b: nat)
    requires CleanLines(y) && a <= b <= |y|
    requires a == b || (!IsSpace(y[a]) && !IsSpace(y[b - 1]))
    ensures Normalized(y[a..b])
  {
    CleanLinesSlice(y, a, b);
  }

  /** Stripping text with clean lines gives a normalised plan. */
  lemma {:induction false} StripNormalized(s: string)
    requires CleanLines(s)
    ensures Normalized(Strip(s))
  {
    var r := Strip(s);
    var a := SpanStart(s);
    StripSlice(s);
    assert r != [] ==> r[0] == s[a] && r[|r| - 1] == s[a + |r| - 1];
    NormalizedSlice(s, a, a + |r|);
  }

  /** Right-stripping lines without boundaries leaves lines without boundaries that end in no whitespace. */
  lemma {:induction false} RStripLinesClean(lines: seq<string>)
    requires BareLines(lines)
    ensures BareLines(RStripLines(lines)) && TrimmedLines(RStripLines(lines))
  {
    var r := RStripLines(lines);
    forall k, j | 0 <= k < |r| && 0 <= j < |r[k]|
      ensures !IsLineBreak(r[k][j])
    {
      assert r[k][j] == lines[k][j];
    }
  }

  /**
   * The output of `_normalize_plan` has no whitespace at either end, and every line in it
   * is separated by a plain "\n" and ends in a non-whitespace character (or is empty).
   */
  lemma {:induction false} NormalizeIsNormalized(plan: string)
    ensures Normalized(NormalizePlan(plan))
  {
    SplitLinesNoBreaks(plan);
    assert BareLines(SplitLines(plan));
    RStripLinesClean(SplitLines(plan));
    JoinCleanLines(RStripLines(SplitLines(plan)));
    StripNormalized(JoinLines(RStripLines(SplitLines(plan))));
  }

  /** `str.rstrip` leaves text that ends in a non-space as it is. */
  lemma {:induction false} RStripKeeps(s: string)
    requires s == [] || !IsSpace(s[|s| - 1])
    ensures RStrip(s) == s
  {
  }

  /** `splitlines` cuts the first line off at the first boundary and goes on after it. */
  lemma {:induction false} SplitLinesUnfold(s: string, i: nat)
    requires i == FirstBreak(s) && i < |s|
    ensures SplitLines(s) == [s[..i]] + SplitLines(s[i + BreakWidth(s, i)..])
  {
  }

  /** A first boundary that is a plain "\n" ends the first line and is one character wide. */
  lemma {:induction false} SplitAtNewline(y: string, i: nat)
    requires i == FirstBreak(y) && i < |y| && y[i] == '\n'
    ensures SplitLines(y) == [y[..i]] + SplitLines(y[i + 1..])
  {
    SplitLinesUnfold(y, i);
    NewlineWidth(y, i);
  }

  /** `"\n".join` of a line followed by at least one more. */
  lemma {:induction false} JoinCons(line: string, lines: seq<string>)
    requires |lines| > 0
    ensures JoinLines([line] + lines) == line + "\n" + JoinLines(lines)
  {
    assert ([line] + lines)[1..] == lines;
  }

  /** Text with a "\n" at `i` is what comes before it, the "\n", and what comes after it. */
  lemma {:induction false} AroundNewline(y: string, i: nat)
    requires i < |y| && y[i] == '\n'
    ensures y == y[..i] + "\n" + y[i + 1..]
  {
  }

  /**
   * Clean-lined text that does not end in "\n" is given back by splitting it into lines
   * and joining them with "\n".
   */
  lemma {:induction false} SplitJoin(y: string)
    requires CleanLines(y) && (y == [] || y[|y| - 1] != '\n')
    ensures JoinLines(SplitLines(y)) == y
    decreases |y|
  {
    if y != [] {
      var i := FirstBreak(y);
      if i == |y| {
        assert SplitLines(y) == [y];
      } else {
        var rest := y[i + 1..];
        assert i != |y| - 1;
        SplitAtNewline(y, i);
        CleanLinesSlice(y, i + 1, |y|);
        assert rest[|rest| - 1] == y[|y| - 1];
        SplitJoin(rest);
        JoinCons(y[..i], SplitLines(rest));
        AroundNewline(y, i);
      }
    }
  }

  /** In clean-lined text the line before the first "\n" does not end in whitespace. */
  lemma {:induction false} FirstLineTrimmed(y: string, i: nat)
    requires CleanLines(y) && i == FirstBreak(y) && i < |y| && y[i] == '\n'
    ensures y[..i] == [] || !IsSpace(y[..i][i - 1])
  {
    if i > 0 {
      assert !IsLineBreak(y[i - 1]);
    }
  }

  /** `[ln.rstrip() for ln in lines]` on a list with a first element. */
  lemma {:induction false} RStripLinesCons(line: string, lines: seq<string>)
    ensures RStripLines([line] + lines) == [RStrip(line)] + RStripLines(lines)
  {
    assert ([line] + lines)[1..] == lines;
  }

  /**
   * In clean-lined text that does not end in whitespace, no line that `splitlines` yields
   * ends in whitespace, so right-stripping leaves every line alone.
   */
  lemma {:induction false} SplitLinesKept(y: string)
    requires CleanLines(y) && (y == [] || !IsSpace(y[|y| - 1]))
    ensures RStripLines(SplitLines(y)) == SplitLines(y)
    decreases |y|
  {
    if y != [] {
      var i := FirstBreak(y);
      if i == |y| {
        assert SplitLines(y) == [y];
        RStripKeeps(y);
      } else {
        var rest := y[i + 1..];
        assert i != |y| - 1;
        SplitAtNewline(y, i);
        CleanLinesSlice(y, i + 1, |y|);
        assert rest[|rest| - 1] == y[|y| - 1];
        SplitLinesKept(rest);
        FirstLineTrimmed(y, i);
        RStripKeeps(y[..i]);
        RStripLinesCons(y[..i], SplitLines(rest));
      }
    }
  }

  /** A plan already in normalised shape is left exactly as it is. */
  lemma {:induction false} NormalizedFixed(y: string)
    requires Normalized(y)
    ensures NormalizePlan(y) == y
  {
    SplitJoin(y);
    SplitLinesKept(y);
  }

  /** `_normalize_plan` is idempotent. */
  lemma {:induction false} NormalizeIdempotent(plan: string)
    ensures NormalizePlan(NormalizePlan(plan)) == NormalizePlan(plan)
  {
    NormalizeIsNormalized(plan);
    NormalizedFixed(NormalizePlan(plan));
  }

  /** Blank lines between two plan steps survive normalisation; they are not collapsed. */
  lemma {:induction false} InteriorBlankLinesKept()
    ensures NormalizePlan("(a)\n\n\n(b)") == "(a)\n\n\n(b)"
  {
    var y := "(a)\n\n\n(b)";
    assert CleanLines(y) by {
      forall i | 0 < i < |y| && y[i] == '\n'
        ensures y[i - 1] == '\n' || !IsSpace(y[i - 1])
      {
        assert i == 3 || i == 4 || i == 5;
      }
    }
    NormalizedFixed(y);
  }
}
