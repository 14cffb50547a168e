/**
 * The web grader (grader.py) and the command-line grader (grade.py) read the same tool logs
 * with different markers. These lemmas say how the two verdicts relate: one implies the
 * other, and a concrete log separates them.
 */
module Variants {
  import opened Text
  import Grader
  import Grade

  /** A log grade.py accepts as a validation is accepted by grader.py too. */
  lemma {:induction false} ValidationStricter(log: string)
    requires Grade.ValidateVerdict(log)
    ensures Contains(log, Grader.EXECUTED_MARKER)
  {
  }

  /**
   * A validation log that reads exactly "Plan executed successfully" passes grader.py's check
   * and fails grade.py's, which also asks for "Plan valid".
   */
  lemma {:induction false} ExecutedOnlyLog(log: string)
    requires log == Grader.EXECUTED_MARKER
    ensures Contains(log, Grader.EXECUTED_MARKER)
    ensures !Grade.ValidateVerdict(log)
  {
    assert Grader.EXECUTED_MARKER <= log;
    assert Grade.VALID_MARKER[5] == 'v';
    assert 'v' !in log;
    ContainsMissingChar(log, Grade.VALID_MARKER, 'v');
  }

  /**
   * A validation log that reports only successful execution passes grader.py's check but
   * fails grade.py's, which also asks for "Plan valid".
   */
  lemma {:induction false} ExecutedButNotValid()
    ensures Contains(Grader.EXECUTED_MARKER, Grader.EXECUTED_MARKER)
    ensures !Grade.ValidateVerdict(Grader.EXECUTED_MARKER)
  {
    ExecutedOnlyLog(Grader.EXECUTED_MARKER);
  }

  /** A planner log grade.py counts as aligned is counted as aligned by grader.py too. */
  lemma {:induction false} AlignmentStricter(log: string)
    requires Contains(log, Grade.NO_SOLUTION_MARKER)
    ensures Contains(log, Grader.NO_SOLUTION_MARKER)
  {
    assert Grade.NO_SOLUTION_MARKER == Grader.NO_SOLUTION_MARKER + ".";
    ContainsPrefix(log, Grader.NO_SOLUTION_MARKER, ".");
  }

  /**
   * A planner log whose message lacks the final period is aligned for grader.py and not
   * for grade.py.
   */
  lemma {:induction false} AlignedWithoutPeriod()
    ensures Contains(Grader.NO_SOLUTION_MARKER, Grader.NO_SOLUTION_MARKER)
    ensures !Contains(Grader.NO_SOLUTION_MARKER, Grade.NO_SOLUTION_MARKER)
  {
    if Contains(Grader.NO_SOLUTION_MARKER, Grade.NO_SOLUTION_MARKER) {
      ContainsLength(Grader.NO_SOLUTION_MARKER, Grade.NO_SOLUTION_MARKER);
      assert false;
    }
  }
}
