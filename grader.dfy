/**
 * The grading pipeline of one test case, for the two grader variants: the
 * standard grader (dmoj/graders/standard.py) and the bridged interactive
 * grader (dmoj/graders/bridged.py), which overrides its launch, interaction
 * and checking steps. The variant is a tag on one `Grader` class, and
 * `Grade` dispatches each overridden step on it.
 *
 * Calls into the sandbox, the checker and the contrib adapter are appended
 * to `calls`; descriptors and temporary files the judge holds are the
 * numbers in `open`, handed out from `nextHandle`.
 */
module Graders {
  import opened Results
  import opened Interfaces
  import StandardGrading
  import BridgedGrading

  datatype Problem = Problem(timeLimit: real, memoryLimit: int)

  /** What the bridged grader fixes at construction. */
  datatype InteractiveSetup = InteractiveSetup(
    handler: BridgedGrading.HandlerData,
    contribType: string,
    adapter: BridgedGrading.Adapter,
    interactorBinary: BridgedGrading.Binary,
    generatorMemoryLimit: int)

  datatype Kind = Standard | BridgedInteractive(setup: InteractiveSetup)

  const InteractorName: string := "interactor"

  // ---------------------------------------------------------------------
  // The pipeline as functions of its inputs.
  // ---------------------------------------------------------------------

  function SubmissionLaunch(problem: Problem, testCase: TestCase, stdin: Stream, stdout: Stream, stderr: Stream): Call
  {
    LaunchSubmission(Limits(problem.timeLimit, problem.memoryLimit), testCase.wallTimeFactor * problem.timeLimit,
                     testCase.symlinks, stdin, stdout, stderr)
  }

  function InteractorLimits(setup: InteractiveSetup, problem: Problem): Limits
  {
    Limits(BridgedGrading.InteractorTimeLimit(setup.handler.preprocessingTime, problem.timeLimit),
           BridgedGrading.InteractorMemoryLimit(setup.handler.memoryLimit, setup.generatorMemoryLimit))
  }

  /** How many handles the launch step and the interaction step take from the counter. */
  function LaunchHandleCount(kind: Kind, memfd: bool): nat
  {
    if kind.BridgedInteractive? then 4 else if memfd then 2 else 0
  }

  function HandleCount(kind: Kind, memfd: bool): nat
  {
    if kind.BridgedInteractive? then 5 else LaunchHandleCount(kind, memfd)
  }

  /** The handles the launch step leaves open for the interaction step. */
  function LaunchedHandles(kind: Kind, memfd: bool, h: nat): set<nat>
  {
    if kind.BridgedInteractive? then {h, h + 3} else if memfd then {h, h + 1} else {}
  }

  /** The calls `_launch_process` makes, `h` being the first free handle. */
  function LaunchCalls(kind: Kind, problem: Problem, memfd: bool, testCase: TestCase, withInput: bool, h: nat): seq<Call>
  {
    match kind
    case Standard =>
      var stdin := if withInput then InputFile else CapturePipe;
      if memfd then
        [OpenMemoryBuffer(h), OpenMemoryBuffer(h + 1), SubmissionLaunch(problem, testCase, stdin, MemoryBuffer(h), MemoryBuffer(h + 1))]
      else
        [SubmissionLaunch(problem, testCase, stdin, CapturePipe, CapturePipe)]
    case BridgedInteractive(_) =>
      [OpenPipe(h, h + 1), OpenPipe(h + 2, h + 3),
       SubmissionLaunch(problem, testCase, PipeEnd(h + 2), PipeEnd(h + 1), CapturePipe),
       Close(h + 2), Close(h + 1)]
  }

  /** Whether the judge itself marks the submission as over the output limit. */
  predicate MarksOle(kind: Kind, memfd: bool, testCase: TestCase, run: Run)
  {
    kind.Standard? && memfd && |run.stdout| > testCase.outputLimitLength
  }

  /** The calls `_interact_with_process` makes, `h` being the first handle the launch took. */
  function InteractCalls(kind: Kind, problem: Problem, memfd: bool, testCase: TestCase, run: Run, h: nat): seq<Call>
  {
    match kind
    case Standard =>
      if memfd then
        [Wait(Submission), Close(h)] + (if MarksOle(kind, memfd, testCase, run) then [MarkOle(Submission)] else []) + [Close(h + 1)]
      else
        [Communicate(testCase.outputLimitLength, StandardGrading.StderrLimit)]
        + (if run.communicate.OutputLimitExceeded? then [Kill(Submission)] else []) + [Wait(Submission)]
    case BridgedInteractive(setup) =>
      [CreateTempFile(h + 4, testCase.expectedOutput),
       LaunchInteractor(InteractorLimits(setup, problem), PipeEnd(h), PipeEnd(h + 3), CapturePipe,
         InteractorArgs(BridgedGrading.ArgsFormatString(setup.handler.argsFormatString, setup.adapter.defaultArgsFormatString),
                        testCase.inputPath, BridgedGrading.DevNull, h + 4),
         [testCase.inputPath]),
       Close(h), Close(h + 3), Wait(Submission), Wait(Interactor), DeleteTempFile(h + 4)]
  }

  /** The submission's captured stdout after interaction (`proc_output`). */
  function CapturedOutput(kind: Kind, memfd: bool, run: Run): seq<byte>
  {
    if kind.BridgedInteractive? then []
    else if memfd then run.stdout
    else if run.communicate.Communicated? then run.communicate.stdout
    else []
  }

  /** The submission's stderr that interaction returns. */
  function CapturedError(kind: Kind, memfd: bool, run: Run): seq<byte>
  {
    if kind.BridgedInteractive? || memfd then run.stderr
    else if run.communicate.Communicated? then run.communicate.stderr
    else []
  }

  /** The record's flags once the sandbox's report is in. */
  function PopulatedFlags(kind: Kind, memfd: bool, testCase: TestCase, run: Run): set<Flag>
  {
    run.report.flags + (if MarksOle(kind, memfd, testCase, run) then {OLE} else {})
  }

  function Populated(kind: Kind, memfd: bool, testCase: TestCase, run: Run): Verdict
  {
    Verdict(PopulatedFlags(kind, memfd, testCase, run), 0.0, run.report.feedback, "")
  }

  /** The calls `check_result` makes. */
  function CheckCalls(kind: Kind, problem: Problem, memfd: bool, testCase: TestCase, run: Run): seq<Call>
  {
    match kind
    case Standard =>
      if StandardGrading.CheckerRuns(PopulatedFlags(kind, memfd, testCase, run), testCase.checkerRunsOnError) then
        [InvokeChecker(CapturedOutput(kind, memfd, run), testCase.expectedOutput, testCase.points)]
      else []
    case BridgedInteractive(setup) =>
      var limits := InteractorLimits(setup, problem);
      [ParseReturnCode(testCase.points, limits.time, limits.memory,
                       BridgedGrading.AdapterFeedback(setup.handler.feedback, run.interactorStderr),
                       InteractorName, run.interactorStderr)]
  }

  /** What `check_result` returns or raises. */
  function Checked(kind: Kind, memfd: bool, testCase: TestCase, run: Run): Outcome<CheckerOutput>
  {
    var flags := PopulatedFlags(kind, memfd, testCase, run);
    match kind
    case Standard => StandardGrading.CheckResult(flags, testCase.checkerRunsOnError, run.checker)
    case BridgedInteractive(_) => BridgedGrading.CheckResult(flags, run.adapter)
  }

  /** The verdict `grade` returns, or the exception it raises. */
  function GradeSpec(kind: Kind, memfd: bool, testCase: TestCase, run: Run): Outcome<Verdict>
  {
    match Checked(kind, memfd, testCase, run)
    case Raised(e) => Raised(e)
    case Ok(check) =>
      Ok(StandardGrading.Merge(Populated(kind, memfd, testCase, run), StandardGrading.Normalise(check, testCase.points)))
  }

  /** The calls of the first half of `grade`: launch, interaction, population. */
  function SubmissionCalls(kind: Kind, problem: Problem, memfd: bool, testCase: TestCase, run: Run, h: nat): seq<Call>
  {
    LaunchCalls(kind, problem, memfd, testCase, true, h)
    + InteractCalls(kind, problem, memfd, testCase, run, h)
    + [Populate(CapturedError(kind, memfd, run))]
  }

  /** Every call `grade` makes, in order, `h` being the first free handle. */
  function GradeCalls(kind: Kind, problem: Problem, memfd: bool, testCase: TestCase, run: Run, h: nat): seq<Call>
  {
    SubmissionCalls(kind, problem, memfd, testCase, run, h)
    + CheckCalls(kind, problem, memfd, testCase, run)
    + (if Checked(kind, memfd, testCase, run).Ok? then [FreeData] else [])
  }

  // ---------------------------------------------------------------------
  // The `Grader` object.
  // ---------------------------------------------------------------------

  class Grader {
    const kind: Kind
    const problem: Problem
    const memfdOutput: bool
    /** The executor's own file-size ceiling (`_orig_fsize`). */
    const origFsize: int

    /** The submission binary's file-size ceiling (`binary.fsize`). */
    var fsize: int
    var stdoutIo: nat
    var stderrIo: nat
    /** The OLE mark on the current submission process. */
    var currentProcOle: bool
    var interactorStdinPipe: nat
    var interactorStdoutPipe: nat
    var interactorTimeLimit: real
    var interactorMemoryLimit: int

    var open: set<nat>
    var nextHandle: nat
    var calls: seq<Call>

    /** Every handle held open was handed out by the counter. */
    ghost predicate Valid()
      reads this
    {
      forall h :: h in open ==> h < nextHandle
    }

    constructor (kind: Kind, problem: Problem, memfdOutput: bool, origFsize: int)
      ensures Valid()
      ensures this.kind == kind && this.problem == problem
      ensures this.memfdOutput == memfdOutput && this.origFsize == origFsize
      ensures fsize == origFsize && open == {} && calls == []
    {
      this.kind, this.problem, this.memfdOutput, this.origFsize := kind, problem, memfdOutput, origFsize;
      fsize := origFsize;
      stdoutIo, stderrIo, interactorStdinPipe, interactorStdoutPipe := 0, 0, 0, 0;
      currentProcOle := false;
      interactorTimeLimit, interactorMemoryLimit := 0.0, 0;
      open, nextHandle, calls := {}, 0, [];
    }

    /**
     * The bridged grader's construction: it exists only when the interactor
     * compiles and the contrib type is registered.
     */
    static method NewBridged(problem: Problem, memfdOutput: bool, origFsize: int,
                             handler: BridgedGrading.HandlerData, problemRoot: Option<string>,
                             compile: BridgedGrading.BuildRequest -> Outcome<BridgedGrading.Binary>,
                             registry: map<string, BridgedGrading.Adapter>, generatorMemoryLimit: int)
      returns (r: Outcome<Grader>)
      ensures r.Raised? <==> BridgedGrading.SetUp(handler, problemRoot, compile, registry).Raised?
      ensures r.Raised? ==> r.error == BridgedGrading.SetUp(handler, problemRoot, compile, registry).error
      ensures r.Ok? ==>
        var s := BridgedGrading.SetUp(handler, problemRoot, compile, registry).value;
        fresh(r.value) && r.value.Valid() && r.value.open == {} && r.value.calls == [] &&
        r.value.problem == problem && r.value.memfdOutput == memfdOutput && r.value.origFsize == origFsize &&
        r.value.kind == BridgedInteractive(InteractiveSetup(handler, s.contribType, s.adapter, s.interactorBinary, generatorMemoryLimit))
    {
      match BridgedGrading.SetUp(handler, problemRoot, compile, registry)
      case Raised(e) =>
        r := Raised(e);
      case Ok(s) =>
        var g := new Grader(BridgedInteractive(InteractiveSetup(handler, s.contribType, s.adapter, s.interactorBinary, generatorMemoryLimit)),
                            problem, memfdOutput, origFsize);
        r := Ok(g);
    }

    // --- judge-held handles ---

    /** A memory-backed output buffer (`MemoryIO()`). */
    method OpenMemoryIO() returns (h: nat)
      requires Valid()
      modifies this`open, this`nextHandle, this`calls
      ensures Valid()
      ensures h == old(nextHandle) && nextHandle == h + 1 && open == old(open) + {h}
      ensures calls == old(calls) + [OpenMemoryBuffer(h)]
    {
      h := nextHandle;
      nextHandle, open := nextHandle + 1, open + {h};
      calls := calls + [OpenMemoryBuffer(h)];
    }

    /** `os.pipe()`: a fresh read end and a fresh write end. */
    method Pipe() returns (readEnd: nat, writeEnd: nat)
      requires Valid()
      modifies this`open, this`nextHandle, this`calls
      ensures Valid()
      ensures readEnd == old(nextHandle) && writeEnd == readEnd + 1 && nextHandle == readEnd + 2
      ensures open == old(open) + {readEnd, writeEnd}
      ensures calls == old(calls) + [OpenPipe(readEnd, writeEnd)]
    {
      readEnd, writeEnd := nextHandle, nextHandle + 1;
      nextHandle, open := nextHandle + 2, open + {readEnd, writeEnd};
      calls := calls + [OpenPipe(readEnd, writeEnd)];
    }

    /** `mktemp(contents)`: a temporary file holding `contents`. */
    method MakeTemp(contents: seq<byte>) returns (h: nat)
      requires Valid()
      modifies this`open, this`nextHandle, this`calls
      ensures Valid()
      ensures h == old(nextHandle) && nextHandle == h + 1 && open == old(open) + {h}
      ensures calls == old(calls) + [CreateTempFile(h, contents)]
    {
      h := nextHandle;
      nextHandle, open := nextHandle + 1, open + {h};
      calls := calls + [CreateTempFile(h, contents)];
    }

    /** Closing a descriptor or buffer the judge holds. */
    method CloseHandle(h: nat)
      requires Valid() && h in open
      modifies this`open, this`calls
      ensures Valid()
      ensures open == old(open) - {h}
      ensures calls == old(calls) + [Close(h)]
    {
      open := open - {h};
      calls := calls + [Close(h)];
    }

    /** Leaving the `mktemp` block: the temporary file is removed. */
    method RemoveTemp(h: nat)
      requires Valid() && h in open
      modifies this`open, this`calls
      ensures Valid()
      ensures open == old(open) - {h}
      ensures calls == old(calls) + [DeleteTempFile(h)]
    {
      open := open - {h};
      calls := calls + [DeleteTempFile(h)];
    }

    // --- the standard grader's steps ---

    /**
     * `StandardGrader._launch_process`: memory-backed capture raises the
     * binary's file-size ceiling to `OutputFsize`; the pipe path leaves it.
     */
    method StandardLaunchProcess(testCase: TestCase, withInput: bool)
      requires Valid() && kind.Standard?
      modifies this`open, this`nextHandle, this`calls, this`stdoutIo, this`stderrIo, this`fsize, this`currentProcOle
      ensures Valid()
      ensures calls == old(calls) + LaunchCalls(kind, problem, memfdOutput, testCase, withInput, old(nextHandle))
      ensures open == old(open) + LaunchedHandles(kind, memfdOutput, old(nextHandle))
      ensures nextHandle == old(nextHandle) + LaunchHandleCount(kind, memfdOutput)
      ensures memfdOutput ==> stdoutIo == old(nextHandle) && stderrIo == old(nextHandle) + 1
      ensures memfdOutput ==> fsize == StandardGrading.OutputFsize(origFsize, testCase.outputLimitLength)
      ensures !memfdOutput ==> fsize == old(fsize)
      ensures !currentProcOle
    {
      var stdin := if withInput then InputFile else CapturePipe;
      var stdout, stderr;
      if memfdOutput {
        stdoutIo := OpenMemoryIO();
        stderrIo := OpenMemoryIO();
        stdout, stderr := MemoryBuffer(stdoutIo), MemoryBuffer(stderrIo);
        fsize := StandardGrading.OutputFsize(origFsize, testCase.outputLimitLength);
      } else {
        stdout, stderr := CapturePipe, CapturePipe;
      }
      calls := calls + [SubmissionLaunch(problem, testCase, stdin, stdout, stderr)];
      currentProcOle := false;
    }

    /**
     * `StandardGrader._interact_with_process`. Memory-backed: wait, take the
     * output, mark OLE exactly when it is over the limit, close both buffers.
     * Pipe: a bounded `communicate`; on overflow the stderr is empty and the
     * process is killed; it is waited on in every case.
     */
    method StandardInteractWithProcess(testCase: TestCase, run: Run, result: Result, ghost h: nat) returns (error: seq<byte>)
      requires Valid() && kind.Standard?
      requires memfdOutput ==> stdoutIo == h && stderrIo == h + 1 && h in open && h + 1 in open
      modifies this`open, this`calls, this`currentProcOle, result`procOutput
      ensures Valid()
      ensures calls == old(calls) + InteractCalls(kind, problem, memfdOutput, testCase, run, h)
      ensures open == old(open) - LaunchedHandles(kind, memfdOutput, h)
      ensures currentProcOle == (old(currentProcOle) || MarksOle(kind, memfdOutput, testCase, run))
      ensures memfdOutput || run.communicate.Communicated? ==> result.procOutput == CapturedOutput(kind, memfdOutput, run)
      ensures !memfdOutput && run.communicate.OutputLimitExceeded? ==> result.procOutput == old(result.procOutput)
      ensures error == CapturedError(kind, memfdOutput, run)
    {
      ghost var calls0 := calls;
      if memfdOutput {
        calls := calls + [Wait(Submission)];
        result.procOutput := run.stdout;
        CloseHandle(stdoutIo);
        ghost var calls1 := calls;
        if |result.procOutput| > testCase.outputLimitLength {
          calls := calls + [MarkOle(Submission)];
          currentProcOle := true;
        }
        ghost var marks := calls[|calls1|..];
        assert calls == calls1 + marks;
        error := run.stderr;
        CloseHandle(stderrIo);
        assert calls == calls0 + [Wait(Submission), Close(h)] + marks + [Close(h + 1)];
      } else {
        calls := calls + [Communicate(testCase.outputLimitLength, StandardGrading.StderrLimit)];
        ghost var calls1 := calls;
        match run.communicate {
          case Communicated(stdout, stderr) =>
            result.procOutput, error := stdout, stderr;
          case OutputLimitExceeded =>
            error := [];
            calls := calls + [Kill(Submission)];
        }
        ghost var kills := calls[|calls1|..];
        assert calls == calls1 + kills;
        calls := calls + [Wait(Submission)];
        assert calls == calls0 + [Communicate(testCase.outputLimitLength, StandardGrading.StderrLimit)] + kills + [Wait(Submission)];
      }
    }

    /** `populate_result`: the sandbox's report enters the record, OLE included when marked. */
    method PopulateResult(error: seq<byte>, result: Result, report: SandboxReport)
      modifies this`calls, result`flags, result`feedback, result`executionTime
      ensures calls == old(calls) + [Populate(error)]
      ensures result.flags == old(result.flags) + report.flags + (if currentProcOle then {OLE} else {})
      ensures result.feedback == report.feedback && result.executionTime == report.executionTime
    {
      calls := calls + [Populate(error)];
      result.flags := result.flags + report.flags + (if currentProcOle then {OLE} else {});
      result.feedback, result.executionTime := report.feedback, report.executionTime;
    }

    /** `StandardGrader.check_result`: the checker is called exactly when the gate is open. */
    method StandardCheckResult(testCase: TestCase, result: Result, reply: CheckerReply) returns (check: Outcome<CheckerOutput>)
      modifies this`calls
      ensures check == StandardGrading.CheckResult(result.flags, testCase.checkerRunsOnError, reply)
      ensures calls == old(calls) +
        if StandardGrading.CheckerRuns(result.flags, testCase.checkerRunsOnError)
        then [InvokeChecker(result.procOutput, testCase.expectedOutput, testCase.points)] else []
    {
      if result.flags == {} || testCase.checkerRunsOnError {
        calls := calls + [InvokeChecker(result.procOutput, testCase.expectedOutput, testCase.points)];
        match reply
        case Returned(output) => check := Ok(output);
        case RaisedDecodeError => check := Ok(Detailed(StandardGrading.InvalidUnicode));
        case RaisedOther(e) => check := Raised(e);
      } else {
        check := Ok(Plain(false));
      }
    }

    // --- the bridged grader's steps ---

    /**
     * `BridgedInteractiveGrader._launch_process`: two pipes; the submission
     * reads one and writes the other; its two ends are closed at once and the
     * interactor's two ends are kept for the next step.
     */
    method BridgedLaunchProcess(testCase: TestCase)
      requires Valid() && kind.BridgedInteractive?
      modifies this`open, this`nextHandle, this`calls, this`interactorStdinPipe, this`interactorStdoutPipe, this`currentProcOle
      ensures Valid()
      ensures calls == old(calls) + LaunchCalls(kind, problem, memfdOutput, testCase, true, old(nextHandle))
      ensures open == old(open) + LaunchedHandles(kind, memfdOutput, old(nextHandle))
      ensures nextHandle == old(nextHandle) + LaunchHandleCount(kind, memfdOutput)
      ensures interactorStdinPipe == old(nextHandle) && interactorStdoutPipe == old(nextHandle) + 3
      ensures !currentProcOle
    {
      var submissionStdoutPipe, submissionStdinPipe;
      interactorStdinPipe, submissionStdoutPipe := Pipe();
      submissionStdinPipe, interactorStdoutPipe := Pipe();
      calls := calls + [SubmissionLaunch(problem, testCase, PipeEnd(submissionStdinPipe), PipeEnd(submissionStdoutPipe), CapturePipe)];
      currentProcOle := false;
      CloseHandle(submissionStdinPipe);
      CloseHandle(submissionStdoutPipe);
    }

    /**
     * `BridgedInteractiveGrader._interact_with_process`: fix the interactor's
     * limits and template, launch it against the kept pipe ends with the
     * expected output in a temporary answer file, close those ends, wait for
     * both processes, and remove the answer file on the way out.
     */
    method BridgedInteractWithProcess(testCase: TestCase, run: Run, ghost h: nat) returns (error: seq<byte>)
      requires Valid() && kind.BridgedInteractive?
      requires interactorStdinPipe == h && interactorStdoutPipe == h + 3 && h in open && h + 3 in open
      requires nextHandle == h + 4
      modifies this`open, this`nextHandle, this`calls, this`interactorTimeLimit, this`interactorMemoryLimit
      ensures Valid()
      ensures calls == old(calls) + InteractCalls(kind, problem, memfdOutput, testCase, run, h)
      ensures open == old(open) - LaunchedHandles(kind, memfdOutput, h)
      ensures nextHandle == h + HandleCount(kind, memfdOutput)
      ensures interactorTimeLimit == InteractorLimits(kind.setup, problem).time
      ensures interactorMemoryLimit == InteractorLimits(kind.setup, problem).memory
      ensures error == CapturedError(kind, memfdOutput, run)
    {
      var setup := kind.setup;
      var judgeOutput := testCase.expectedOutput;
      interactorTimeLimit := BridgedGrading.InteractorTimeLimit(setup.handler.preprocessingTime, problem.timeLimit);
      interactorMemoryLimit := BridgedGrading.InteractorMemoryLimit(setup.handler.memoryLimit, setup.generatorMemoryLimit);
      var argsFormatString := BridgedGrading.ArgsFormatString(setup.handler.argsFormatString, setup.adapter.defaultArgsFormatString);
      var answerFile := MakeTemp(judgeOutput);
      var inputPath := testCase.inputPath;
      var args := InteractorArgs(argsFormatString, inputPath, BridgedGrading.DevNull, answerFile);
      calls := calls + [LaunchInteractor(Limits(interactorTimeLimit, interactorMemoryLimit),
                                         PipeEnd(interactorStdinPipe), PipeEnd(interactorStdoutPipe), CapturePipe,
                                         args, [inputPath])];
      CloseHandle(interactorStdinPipe);
      CloseHandle(interactorStdoutPipe);
      calls := calls + [Wait(Submission), Wait(Interactor)];
      error := run.stderr;
      RemoveTemp(answerFile);
    }

    /**
     * `BridgedInteractiveGrader.check_result`: the adapter is always asked
     * first, with the feedback the problem allows, before the flags decide.
     */
    method BridgedCheckResult(testCase: TestCase, result: Result, run: Run) returns (check: Outcome<CheckerOutput>)
      requires kind.BridgedInteractive?
      modifies this`calls
      ensures calls == old(calls) +
        [ParseReturnCode(testCase.points, interactorTimeLimit, interactorMemoryLimit,
                         BridgedGrading.AdapterFeedback(kind.setup.handler.feedback, run.interactorStderr),
                         InteractorName, run.interactorStderr)]
      ensures check == BridgedGrading.CheckResult(result.flags, run.adapter)
    {
      var stderr := run.interactorStderr;
      var feedback := if kind.setup.handler.feedback then Utf8TextOf(stderr) else NoFeedback;
      calls := calls + [ParseReturnCode(testCase.points, interactorTimeLimit, interactorMemoryLimit, feedback, InteractorName, stderr)];
      var parsedResult := run.adapter;
      if parsedResult.Raised? {
        check := parsedResult;
      } else {
        check := if result.flags != {} then Ok(Plain(false)) else parsedResult;
      }
    }

    // --- the pipeline ---

    /** The state the launch step leaves for the interaction step, `h` being its first handle. */
    ghost predicate LaunchedAt(h: nat)
      reads this
    {
      Valid() &&
      LaunchedHandles(kind, memfdOutput, h) <= open &&
      nextHandle == h + LaunchHandleCount(kind, memfdOutput) &&
      (kind.Standard? && memfdOutput ==> stdoutIo == h && stderrIo == h + 1) &&
      (kind.BridgedInteractive? ==> interactorStdinPipe == h && interactorStdoutPipe == h + 3)
    }

    /** `self._launch_process(case, input_file)`, dispatched on the variant. */
    method LaunchProcess(testCase: TestCase)
      requires Valid()
      modifies this`open, this`nextHandle, this`calls, this`stdoutIo, this`stderrIo, this`fsize, this`currentProcOle,
               this`interactorStdinPipe, this`interactorStdoutPipe
      ensures LaunchedAt(old(nextHandle))
      ensures calls == old(calls) + LaunchCalls(kind, problem, memfdOutput, testCase, true, old(nextHandle))
      ensures open == old(open) + LaunchedHandles(kind, memfdOutput, old(nextHandle))
      ensures !currentProcOle
      ensures kind.Standard? && memfdOutput ==> fsize == StandardGrading.OutputFsize(origFsize, testCase.outputLimitLength)
      ensures !(kind.Standard? && memfdOutput) ==> fsize == old(fsize)
    {
      if kind.Standard? {
        StandardLaunchProcess(testCase, true);
      } else {
        BridgedLaunchProcess(testCase);
      }
    }

    /** `self._interact_with_process(case, result)`, dispatched on the variant. */
    method InteractWithProcess(testCase: TestCase, run: Run, result: Result, ghost h: nat) returns (error: seq<byte>)
      requires LaunchedAt(h) && !currentProcOle
      modifies this`open, this`nextHandle, this`calls, this`currentProcOle, this`interactorTimeLimit,
               this`interactorMemoryLimit, result`procOutput
      ensures Valid()
      ensures calls == old(calls) + InteractCalls(kind, problem, memfdOutput, testCase, run, h)
      ensures open == old(open) - LaunchedHandles(kind, memfdOutput, h)
      ensures nextHandle == h + HandleCount(kind, memfdOutput)
      ensures currentProcOle == MarksOle(kind, memfdOutput, testCase, run)
      ensures kind.BridgedInteractive? ==> interactorTimeLimit == InteractorLimits(kind.setup, problem).time
      ensures kind.BridgedInteractive? ==> interactorMemoryLimit == InteractorLimits(kind.setup, problem).memory
      ensures old(result.procOutput) == [] ==> result.procOutput == CapturedOutput(kind, memfdOutput, run)
      ensures error == CapturedError(kind, memfdOutput, run)
    {
      if kind.Standard? {
        error := StandardInteractWithProcess(testCase, run, result, h);
      } else {
        error := BridgedInteractWithProcess(testCase, run, h);
      }
    }

    /** `self.check_result(case, result)`, dispatched on the variant. */
    method CheckResult(testCase: TestCase, result: Result, run: Run) returns (check: Outcome<CheckerOutput>)
      requires kind.BridgedInteractive? ==> interactorTimeLimit == InteractorLimits(kind.setup, problem).time
      requires kind.BridgedInteractive? ==> interactorMemoryLimit == InteractorLimits(kind.setup, problem).memory
      requires result.flags == PopulatedFlags(kind, memfdOutput, testCase, run)
      requires result.procOutput == CapturedOutput(kind, memfdOutput, run)
      modifies this`calls
      ensures calls == old(calls) + CheckCalls(kind, problem, memfdOutput, testCase, run)
      ensures check == Checked(kind, memfdOutput, testCase, run)
    {
      if kind.Standard? {
        check := StandardCheckResult(testCase, result, run.checker);
      } else {
        check := BridgedCheckResult(testCase, result, run);
      }
    }

    /**
     * The first half of `grade`: a fresh record, the launch, the
     * interaction and the sandbox's report. Every handle opened on the way
     * is closed again.
     */
    method RunSubmission(testCase: TestCase, run: Run) returns (result: Result)
      requires Valid()
      modifies this`open, this`nextHandle, this`calls, this`stdoutIo, this`stderrIo, this`fsize, this`currentProcOle,
               this`interactorStdinPipe, this`interactorStdoutPipe, this`interactorTimeLimit, this`interactorMemoryLimit
      ensures Valid() && fresh(result)
      ensures open == old(open)
      ensures nextHandle == old(nextHandle) + HandleCount(kind, memfdOutput)
      ensures calls == old(calls) + SubmissionCalls(kind, problem, memfdOutput, testCase, run, old(nextHandle))
      ensures result.Snapshot() == Populated(kind, memfdOutput, testCase, run)
      ensures result.procOutput == CapturedOutput(kind, memfdOutput, run)
      ensures kind.BridgedInteractive? ==> interactorTimeLimit == InteractorLimits(kind.setup, problem).time
      ensures kind.BridgedInteractive? ==> interactorMemoryLimit == InteractorLimits(kind.setup, problem).memory
      ensures kind.Standard? && memfdOutput ==> fsize == StandardGrading.OutputFsize(origFsize, testCase.outputLimitLength)
      ensures !(kind.Standard? && memfdOutput) ==> fsize == old(fsize)
    {
      result := new Result();
      ghost var h := nextHandle;
      ghost var open0 := open;
      LaunchProcess(testCase);
      var error := InteractWithProcess(testCase, run, result, h);
      assert open == open0 by {
        assert forall x :: x in LaunchedHandles(kind, memfdOutput, h) ==> x !in open0;
      }
      PopulateResult(error, result, run.report);
    }

    /**
     * `grade`: launch, interact, populate, check, normalise, merge, free.
     * The record and the calls made are those of `GradeSpec` and
     * `GradeCalls`; every handle opened for the case is closed again.
     */
    method Grade(testCase: TestCase, run: Run) returns (outcome: Outcome<Result>)
      requires Valid()
      modifies this`open, this`nextHandle, this`calls, this`stdoutIo, this`stderrIo, this`fsize, this`currentProcOle,
               this`interactorStdinPipe, this`interactorStdoutPipe, this`interactorTimeLimit, this`interactorMemoryLimit
      ensures Valid()
      ensures open == old(open)
      ensures nextHandle == old(nextHandle) + HandleCount(kind, memfdOutput)
      ensures calls == old(calls) + GradeCalls(kind, problem, memfdOutput, testCase, run, old(nextHandle))
      ensures outcome.Raised? <==> GradeSpec(kind, memfdOutput, testCase, run).Raised?
      ensures outcome.Raised? ==> outcome.error == GradeSpec(kind, memfdOutput, testCase, run).error
      ensures outcome.Ok? ==> fresh(outcome.value)
      ensures outcome.Ok? ==> outcome.value.Snapshot() == GradeSpec(kind, memfdOutput, testCase, run).value
      ensures outcome.Ok? ==> outcome.value.procOutput == CapturedOutput(kind, memfdOutput, run)
      ensures kind.Standard? && memfdOutput ==> fsize == StandardGrading.OutputFsize(origFsize, testCase.outputLimitLength)
      ensures !(kind.Standard? && memfdOutput) ==> fsize == old(fsize)
    {
      var result := RunSubmission(testCase, run);
      var check := CheckResult(testCase, result, run);

      if check.Raised? {
        assert GradeCalls(kind, problem, memfdOutput, testCase, run, old(nextHandle))
            == SubmissionCalls(kind, problem, memfdOutput, testCase, run, old(nextHandle))
               + CheckCalls(kind, problem, memfdOutput, testCase, run) + [];
        outcome := Raised(check.error);
        return;
      }

      var c := StandardGrading.Normalise(check.value, testCase.points);
      result.ApplyCheck(c);

      calls := calls + [FreeData];
      outcome := Ok(result);
    }
  }
}
