/**
 * The decisions of the standard grader (dmoj/graders/standard.py) that do not
 * depend on grader state: the output file-size ceiling, the checker gate,
 * the normalisation of a checker's answer and its merge into the record.
 */
module StandardGrading {
  import opened Results
  import opened Interfaces

  /** One mebibyte: the floor of the output ceiling and the stderr cap of the pipe path. */
  const OneMiB: int := 1048576
  const StderrLimit: int := 1048576
  /** Slack above the output limit in the memory-backed file-size ceiling. */
  const FsizeSlack: int := 1024

  /** The feedback given when the checker fails to decode text. */
  const InvalidUnicode: CheckerResult := CheckerResult(false, 0.0, "invalid unicode", "")

  /**
   * The file-size ceiling for memory-backed capture: the largest of the
   * executor's own ceiling, the output limit plus slack, and one MiB.
   */
  function OutputFsize(origFsize: int, outputLimitLength: int): (fsize: int)
    ensures fsize >= origFsize && fsize >= outputLimitLength + FsizeSlack && fsize >= OneMiB
    ensures fsize == origFsize || fsize == outputLimitLength + FsizeSlack || fsize == OneMiB
  {
    var larger := if origFsize >= outputLimitLength + FsizeSlack then origFsize else outputLimitLength + FsizeSlack;
    if larger >= OneMiB then larger else OneMiB
  }

  /** The checker runs only on a submission with no failure flag, or when it runs on error. */
  predicate CheckerRuns(flags: set<Flag>, runOnError: bool)
  {
    flags == {} || runOnError
  }

  /**
   * `check_result`: the gate, then the checker's reply. A decode failure is
   * recovered into a zero-point failing result; any other exception escapes.
   */
  function CheckResult(flags: set<Flag>, runOnError: bool, reply: CheckerReply): (r: Outcome<CheckerOutput>)
    ensures !CheckerRuns(flags, runOnError) ==> r == Ok(Plain(false))
    ensures CheckerRuns(flags, runOnError) && reply.Returned? ==> r == Ok(reply.output)
    ensures CheckerRuns(flags, runOnError) && reply.RaisedDecodeError? ==> r == Ok(Detailed(InvalidUnicode))
    ensures r.Raised? <==> CheckerRuns(flags, runOnError) && reply.RaisedOther?
    ensures r.Raised? ==> r.error == reply.error
  {
    if CheckerRuns(flags, runOnError) then
      match reply
      case Returned(output) => Ok(output)
      case RaisedDecodeError => Ok(Detailed(InvalidUnicode))
      case RaisedOther(e) => Raised(e)
    else
      Ok(Plain(false))
  }

  /**
   * A plain boolean becomes a `CheckerResult` worth the case's points when
   * true and nothing when false; a rich result is kept as it is (its points
   * are not clipped to the case's value).
   */
  function Normalise(check: CheckerOutput, casePoints: real): (c: CheckerResult)
    ensures check.Plain? ==> c.passed == check.verdict && c.feedback == "" && c.extendedFeedback == ""
    ensures check.Plain? && c.passed ==> c.points == casePoints
    ensures check.Plain? && !c.passed ==> c.points == 0.0
    ensures check.Detailed? ==> c == check.result
  {
    match check
    case Plain(b) => CheckerResult(b, if b then casePoints else 0.0, "", "")
    case Detailed(result) => result
  }

  /** Normalising an already normalised answer changes nothing. */
  lemma NormaliseIdempotent(check: CheckerOutput, casePoints: real)
    ensures Normalise(Detailed(Normalise(check, casePoints)), casePoints) == Normalise(check, casePoints)
  {
  }

  /**
   * Merging a normalised answer into the record: AC or WA is added to the
   * flags and nothing is removed; points are overwritten; each feedback
   * takes the checker's text when it is non-empty and keeps the earlier one
   * otherwise.
   */
  function Merge(before: Verdict, c: CheckerResult): (after: Verdict)
    ensures before.flags <= after.flags
    ensures after.flags - before.flags <= {AC, WA}
    ensures AC in after.flags <==> c.passed || AC in before.flags
    ensures WA in after.flags <==> !c.passed || WA in before.flags
    ensures after.points == c.points
    ensures c.feedback != "" ==> after.feedback == c.feedback
    ensures c.feedback == "" ==> after.feedback == before.feedback
    ensures c.extendedFeedback != "" ==> after.extendedFeedback == c.extendedFeedback
    ensures c.extendedFeedback == "" ==> after.extendedFeedback == before.extendedFeedback
  {
    Verdict(
      before.flags + {if c.passed then AC else WA},
      c.points,
      if c.feedback != "" then c.feedback else before.feedback,
      if c.extendedFeedback != "" then c.extendedFeedback else before.extendedFeedback)
  }

  /**
   * When the gate is closed the answer merged into the record fails with no
   * points, whatever the checker would have said.
   */
  lemma GateClosedScoresZero(before: Verdict, runOnError: bool, reply: CheckerReply, casePoints: real)
    requires !CheckerRuns(before.flags, runOnError)
    ensures CheckResult(before.flags, runOnError, reply).Ok?
    ensures var after := Merge(before, Normalise(CheckResult(before.flags, runOnError, reply).value, casePoints));
      after.points == 0.0 && WA in after.flags && after.feedback == before.feedback
  {
  }
}
