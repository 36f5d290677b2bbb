/**
 * The verdict record that grading one test case accumulates, and the values a
 * checker hands back. The numeric encodings of the verdict flags are not
 * part of this model: a flag set stands for the bitmask, union for `|=`, and
 * the empty set for a zero `result_flag`.
 */
module Results {

  type byte = b: int | 0 <= b < 256

  /** One verdict flag. AC and WA are the terminal judgments OR'd in last. */
  datatype Flag = AC | WA | RTE | TLE | MLE | IR | SC | OLE | IE

  /** The rich form of a checker's answer. An absent feedback is the empty string. */
  datatype CheckerResult = CheckerResult(passed: bool, points: real, feedback: string, extendedFeedback: string)

  /** What a checker or contrib adapter may return: a plain boolean or a `CheckerResult`. */
  datatype CheckerOutput = Plain(verdict: bool) | Detailed(result: CheckerResult)

  /** Exceptions that cross a grader's boundary. */
  datatype Error =
    | InternalError(message: string)
    | CompileError(message: string)
    | OtherError(message: string)

  /** A value, or the exception raised instead of producing it. */
  datatype Outcome<+T> = Ok(value: T) | Raised(error: Error)

  datatype Option<+T> = None | Some(value: T)

  /** The verdict-bearing part of a `Result`. */
  datatype Verdict = Verdict(flags: set<Flag>, points: real, feedback: string, extendedFeedback: string)

  /** The mutable per-case record; fields start empty and grading fills them in. */
  class Result {
    var flags: set<Flag>
    var points: real
    var feedback: string
    var extendedFeedback: string
    var procOutput: seq<byte>
    var executionTime: real

    constructor ()
      ensures flags == {} && points == 0.0 && feedback == "" && extendedFeedback == ""
      ensures procOutput == [] && executionTime == 0.0
    {
      flags, points, feedback, extendedFeedback := {}, 0.0, "", "";
      procOutput, executionTime := [], 0.0;
    }

    function Snapshot(): Verdict
      reads this
    {
      Verdict(flags, points, feedback, extendedFeedback)
    }

    /**
     * Merging a normalised checker answer (lines 46-49 of `grade`): AC or WA
     * is OR'd into the flags, the points are overwritten, and each feedback
     * is replaced only by a non-empty one.
     */
    method ApplyCheck(c: CheckerResult)
      modifies this
      ensures flags == old(flags) + {if c.passed then AC else WA}
      ensures points == c.points
      ensures feedback == if c.feedback != "" then c.feedback else old(feedback)
      ensures extendedFeedback == if c.extendedFeedback != "" then c.extendedFeedback else old(extendedFeedback)
      ensures procOutput == old(procOutput) && executionTime == old(executionTime)
    {
      flags := flags + {if c.passed then AC else WA};
      points := c.points;
      feedback := if c.feedback != "" then c.feedback else feedback;
      extendedFeedback := if c.extendedFeedback != "" then c.extendedFeedback else extendedFeedback;
    }
  }
}
