/**
 * The judge's external collaborators, seen only at their interface: the test
 * case it borrows, the calls it makes into the sandbox, the checker and the
 * contrib adapter (recorded as a log), and what those collaborators report
 * back for one case (given as input).
 */
module Interfaces {
  import opened Results

  /** One grading unit, as the problem loader hands it to a grader. */
  datatype TestCase = TestCase(
    points: real,
    inputPath: string,
    expectedOutput: seq<byte>,
    outputLimitLength: int,
    wallTimeFactor: real,
    symlinks: map<string, string>,
    checkerRunsOnError: bool)

  datatype Proc = Submission | Interactor

  /** Where a launched process's standard stream is bound. */
  datatype Stream =
    | InputFile                    // the case's materialised input data
    | CapturePipe                  // a pipe the process handle reads itself
    | MemoryBuffer(handle: nat)    // a judge-held memory-backed file
    | PipeEnd(handle: nat)         // one end of a judge-created OS pipe

  datatype Limits = Limits(time: real, memory: int)

  /** The interactor's command line before substitution and tokenising. */
  datatype InteractorArgs = InteractorArgs(template: string, inputFile: string, outputFile: string, answerFile: nat)

  /** The feedback text handed to the adapter: the decoded stderr, or the empty string. */
  datatype FeedbackArg = Utf8TextOf(raw: seq<byte>) | NoFeedback

  /** One call from a grader into code outside this model. */
  datatype Call =
    | OpenMemoryBuffer(handle: nat)
    | OpenPipe(readEnd: nat, writeEnd: nat)
    | CreateTempFile(handle: nat, contents: seq<byte>)
    | LaunchSubmission(limits: Limits, wallTime: real, symlinks: map<string, string>,
                       stdin: Stream, stdout: Stream, stderr: Stream)
    | LaunchInteractor(limits: Limits, stdin: Stream, stdout: Stream, stderr: Stream,
                       args: InteractorArgs, extraFs: seq<string>)
    | Close(handle: nat)
    | DeleteTempFile(handle: nat)
    | Wait(proc: Proc)
    | Communicate(outLimit: int, errLimit: int)
    | Kill(proc: Proc)
    | MarkOle(proc: Proc)
    | Populate(error: seq<byte>)
    | InvokeChecker(submissionOutput: seq<byte>, judgeOutput: seq<byte>, pointValue: real)
    | ParseReturnCode(maxPoints: real, timeLimit: real, memoryLimit: int,
                      feedback: FeedbackArg, name: string, interactorStderr: seq<byte>)
    | FreeData

  /** What a bounded `communicate` on the submission gives back. */
  datatype CommunicateReply = Communicated(stdout: seq<byte>, stderr: seq<byte>) | OutputLimitExceeded

  /** The sandbox's post-mortem report that `populate_result` copies into the record. */
  datatype SandboxReport = SandboxReport(flags: set<Flag>, feedback: string, executionTime: real)

  /** What the checker does when it is called. */
  datatype CheckerReply = Returned(output: CheckerOutput) | RaisedDecodeError | RaisedOther(error: Error)

  /** Everything the collaborators report for one case. */
  datatype Run = Run(
    stdout: seq<byte>,               // memory-backed capture of the submission's stdout
    stderr: seq<byte>,               // the submission's stderr (memory-backed or piped)
    communicate: CommunicateReply,   // the reply of the bounded pipe read
    report: SandboxReport,
    checker: CheckerReply,
    interactorStderr: seq<byte>,
    adapter: Outcome<CheckerOutput>) // what parse_return_code returns or raises
}
