/**
 * What grading one case promises, stated over `GradeSpec` (the verdict) and
 * `GradeCalls` (the calls made), which `Grader.Grade` is proved to follow.
 */
module GradingProperties {
  import opened Results
  import opened Interfaces
  import opened Graders
  import StandardGrading
  import BridgedGrading

  // ---------------------------------------------------------------------
  // Handles opened and released in a call log.
  // ---------------------------------------------------------------------

  /** The handles one call opens: a memory buffer, both ends of a pipe, a temporary file. */
  function OpenedBy(c: Call): set<nat>
  {
    match c
    case OpenMemoryBuffer(h) => {h}
    case OpenPipe(r, w) => {r, w}
    case CreateTempFile(h, _) => {h}
    case _ => {}
  }

  /** The handle one call closes or deletes. */
  function ReleasedBy(c: Call): set<nat>
  {
    match c
    case Close(h) => {h}
    case DeleteTempFile(h) => {h}
    case _ => {}
  }

  function Opened(calls: seq<Call>): set<nat>
  {
    if calls == [] then {} else OpenedBy(calls[0]) + Opened(calls[1..])
  }

  function Released(calls: seq<Call>): set<nat>
  {
    if calls == [] then {} else ReleasedBy(calls[0]) + Released(calls[1..])
  }

  lemma {:induction false} OpenedReleasedConcat(a: seq<Call>, b: seq<Call>)
    ensures Opened(a + b) == Opened(a) + Opened(b)
    ensures Released(a + b) == Released(a) + Released(b)
  {
    if a != [] {
      assert (a + b)[0] == a[0];
      assert (a + b)[1..] == a[1..] + b;
      OpenedReleasedConcat(a[1..], b);
    } else {
      assert a + b == b;
    }
  }

  lemma NoHandlesAfterInteraction(kind: Kind, problem: Problem, memfd: bool, testCase: TestCase, run: Run)
    ensures Opened(AfterInteraction(kind, problem, memfd, testCase, run)) == {}
    ensures Released(AfterInteraction(kind, problem, memfd, testCase, run)) == {}
  {
    var populate := [Populate(CapturedError(kind, memfd, run))];
    var check := CheckCalls(kind, problem, memfd, testCase, run);
    var free := if Checked(kind, memfd, testCase, run).Ok? then [FreeData] else [];
    OpenedReleasedConcat(populate, check);
    OpenedReleasedConcat(populate + check, free);
    assert Opened(populate) == {} && Released(populate) == {};
    assert Opened(free) == {} && Released(free) == {};
    assert Opened(check) == {} && Released(check) == {} by {
      if check != [] {
        assert check[1..] == [];
      }
    }
  }

  lemma MemoryCaptureHandles(problem: Problem, testCase: TestCase, run: Run, h: nat)
    ensures var calls := LaunchCalls(Standard, problem, true, testCase, true, h) + InteractCalls(Standard, problem, true, testCase, run, h);
      Opened(calls) == {h, h + 1} && Released(calls) == {h, h + 1}
  {
    MemoryLaunchHandles(problem, testCase, h);
    MemoryInteractionHandles(problem, testCase, run, h);
    OpenedReleasedConcat(LaunchCalls(Standard, problem, true, testCase, true, h), InteractCalls(Standard, problem, true, testCase, run, h));
  }

  lemma MemoryLaunchHandles(problem: Problem, testCase: TestCase, h: nat)
    ensures var launch := LaunchCalls(Standard, problem, true, testCase, true, h);
      Opened(launch) == {h, h + 1} && Released(launch) == {}
  {
    var launch := LaunchCalls(Standard, problem, true, testCase, true, h);
    assert Opened(launch[2..]) == {} && Released(launch[2..]) == {};
    assert Opened(launch[1..]) == {h + 1} && Released(launch[1..]) == {};
  }

  lemma MemoryInteractionHandles(problem: Problem, testCase: TestCase, run: Run, h: nat)
    ensures var interact := InteractCalls(Standard, problem, true, testCase, run, h);
      Opened(interact) == {} && Released(interact) == {h, h + 1}
  {
    var mark := if MarksOle(Standard, true, testCase, run) then [MarkOle(Submission)] else [];
    assert InteractCalls(Standard, problem, true, testCase, run, h) == [Wait(Submission), Close(h)] + mark + [Close(h + 1)];
    assert Opened(mark) == {} && Released(mark) == {};
    assert [Wait(Submission), Close(h)][1..] == [Close(h)];
    assert [Close(h)][1..] == [];
    assert Released([Close(h)]) == {h};
    assert Released([Wait(Submission), Close(h)]) == {h};
    assert [Close(h + 1)][1..] == [];
    assert Released([Close(h + 1)]) == {h + 1};
    OpenedReleasedConcat([Wait(Submission), Close(h)], mark);
    OpenedReleasedConcat([Wait(Submission), Close(h)] + mark, [Close(h + 1)]);
  }

  lemma PipeCaptureHandles(problem: Problem, testCase: TestCase, run: Run, h: nat)
    ensures var calls := LaunchCalls(Standard, problem, false, testCase, true, h) + InteractCalls(Standard, problem, false, testCase, run, h);
      Opened(calls) == {} && Released(calls) == {}
  {
    var launch := LaunchCalls(Standard, problem, false, testCase, true, h);
    var communicate := [Communicate(testCase.outputLimitLength, StandardGrading.StderrLimit)];
    var kill := if run.communicate.OutputLimitExceeded? then [Kill(Submission)] else [];
    assert Opened(launch) == {} && Released(launch) == {};
    assert Opened(kill) == {} && Released(kill) == {};
    OpenedReleasedConcat(communicate, kill);
    OpenedReleasedConcat(communicate + kill, [Wait(Submission)]);
    OpenedReleasedConcat(launch, InteractCalls(Standard, problem, false, testCase, run, h));
  }

  lemma BridgedLaunchHandles(setup: InteractiveSetup, problem: Problem, memfd: bool, testCase: TestCase, h: nat)
    ensures var launch := LaunchCalls(BridgedInteractive(setup), problem, memfd, testCase, true, h);
      Opened(launch) == {h, h + 1, h + 2, h + 3} && Released(launch) == {h + 2, h + 1}
  {
    var launch := LaunchCalls(BridgedInteractive(setup), problem, memfd, testCase, true, h);
    assert Opened(launch[4..]) == {} && Released(launch[4..]) == {h + 1};
    assert Opened(launch[3..]) == {} && Released(launch[3..]) == {h + 2, h + 1};
    assert Opened(launch[2..]) == {} && Released(launch[2..]) == {h + 2, h + 1};
    assert Opened(launch[1..]) == {h + 2, h + 3} && Released(launch[1..]) == {h + 2, h + 1};
  }

  lemma BridgedInteractionHandles(setup: InteractiveSetup, problem: Problem, memfd: bool, testCase: TestCase, run: Run, h: nat)
    ensures var interact := InteractCalls(BridgedInteractive(setup), problem, memfd, testCase, run, h);
      Opened(interact) == {h + 4} && Released(interact) == {h, h + 3, h + 4}
  {
    var interact := InteractCalls(BridgedInteractive(setup), problem, memfd, testCase, run, h);
    assert Opened(interact[6..]) == {} && Released(interact[6..]) == {h + 4};
    assert Opened(interact[5..]) == {} && Released(interact[5..]) == {h + 4};
    assert Opened(interact[4..]) == {} && Released(interact[4..]) == {h + 4};
    assert Opened(interact[3..]) == {} && Released(interact[3..]) == {h + 3, h + 4};
    assert Opened(interact[2..]) == {} && Released(interact[2..]) == {h, h + 3, h + 4};
    assert Opened(interact[1..]) == {} && Released(interact[1..]) == {h, h + 3, h + 4};
  }

  /** The handles launch and interaction take from the counter, `h` being the first. */
  function TakenHandles(kind: Kind, memfd: bool, h: nat): (taken: set<nat>)
    ensures forall x :: x in taken <==> h <= x < h + HandleCount(kind, memfd)
  {
    if kind.BridgedInteractive? then {h, h + 1, h + 2, h + 3, h + 4}
    else if memfd then {h, h + 1}
    else {}
  }

  lemma SubmissionReleasesWhatItOpens(kind: Kind, problem: Problem, memfd: bool, testCase: TestCase, run: Run, h: nat)
    ensures var submission := LaunchCalls(kind, problem, memfd, testCase, true, h) + InteractCalls(kind, problem, memfd, testCase, run, h);
      Opened(submission) == TakenHandles(kind, memfd, h) && Released(submission) == TakenHandles(kind, memfd, h)
  {
    match kind
    case Standard =>
      if memfd {
        MemoryCaptureHandles(problem, testCase, run, h);
      } else {
        PipeCaptureHandles(problem, testCase, run, h);
      }
    case BridgedInteractive(setup) =>
      BridgedLaunchHandles(setup, problem, memfd, testCase, h);
      BridgedInteractionHandles(setup, problem, memfd, testCase, run, h);
      OpenedReleasedConcat(LaunchCalls(kind, problem, memfd, testCase, true, h), InteractCalls(kind, problem, memfd, testCase, run, h));
  }

  /**
   * No descriptor leaks: every handle one `grade` call opens, it also
   * releases, and it opens exactly the handles counted from `h`.
   */
  lemma GradeReleasesWhatItOpens(kind: Kind, problem: Problem, memfd: bool, testCase: TestCase, run: Run, h: nat)
    ensures forall x :: x in Opened(GradeCalls(kind, problem, memfd, testCase, run, h)) <==>
                        h <= x < h + HandleCount(kind, memfd)
    ensures Released(GradeCalls(kind, problem, memfd, testCase, run, h)) ==
            Opened(GradeCalls(kind, problem, memfd, testCase, run, h))
  {
    var submission := LaunchCalls(kind, problem, memfd, testCase, true, h) + InteractCalls(kind, problem, memfd, testCase, run, h);
    GradeCallsInThreeParts(kind, problem, memfd, testCase, run, h);
    NoHandlesAfterInteraction(kind, problem, memfd, testCase, run);
    OpenedReleasedConcat(submission, AfterInteraction(kind, problem, memfd, testCase, run));
    SubmissionReleasesWhatItOpens(kind, problem, memfd, testCase, run, h);
  }

  // ---------------------------------------------------------------------
  // The standard grader.
  // ---------------------------------------------------------------------

  predicate InvokesChecker(calls: seq<Call>)
  {
    exists i :: 0 <= i < |calls| && calls[i].InvokeChecker?
  }

  /** The checker is called exactly when the gate is open after population, and then exactly once. */
  lemma CheckerCalledOnlyThroughGate(problem: Problem, memfd: bool, testCase: TestCase, run: Run, h: nat)
    ensures var calls := GradeCalls(Standard, problem, memfd, testCase, run, h);
      InvokesChecker(calls) <==>
        StandardGrading.CheckerRuns(PopulatedFlags(Standard, memfd, testCase, run), testCase.checkerRunsOnError)
    ensures StandardGrading.CheckerRuns(PopulatedFlags(Standard, memfd, testCase, run), testCase.checkerRunsOnError) ==>
      multiset(GradeCalls(Standard, problem, memfd, testCase, run, h))
        [InvokeChecker(CapturedOutput(Standard, memfd, run), testCase.expectedOutput, testCase.points)] == 1
  {
    var calls := GradeCalls(Standard, problem, memfd, testCase, run, h);
    var before := SubmissionCalls(Standard, problem, memfd, testCase, run, h);
    NoCheckerCallBeforeCheck(problem, memfd, testCase, run, h);
    if StandardGrading.CheckerRuns(PopulatedFlags(Standard, memfd, testCase, run), testCase.checkerRunsOnError) {
      assert calls[|before|].InvokeChecker?;
      CheckerInvokedOnce(problem, memfd, testCase, run, h);
    }
  }

  lemma NoCheckerCallBeforeCheck(problem: Problem, memfd: bool, testCase: TestCase, run: Run, h: nat)
    ensures var before := SubmissionCalls(Standard, problem, memfd, testCase, run, h);
      forall i :: 0 <= i < |before| ==> !before[i].InvokeChecker?
  {
  }

  lemma CheckerInvokedOnce(problem: Problem, memfd: bool, testCase: TestCase, run: Run, h: nat)
    requires StandardGrading.CheckerRuns(PopulatedFlags(Standard, memfd, testCase, run), testCase.checkerRunsOnError)
    ensures multiset(GradeCalls(Standard, problem, memfd, testCase, run, h))
              [InvokeChecker(CapturedOutput(Standard, memfd, run), testCase.expectedOutput, testCase.points)] == 1
  {
    var before := SubmissionCalls(Standard, problem, memfd, testCase, run, h);
    var check := CheckCalls(Standard, problem, memfd, testCase, run);
    var free := if Checked(Standard, memfd, testCase, run).Ok? then [FreeData] else [];
    var invoke := InvokeChecker(CapturedOutput(Standard, memfd, run), testCase.expectedOutput, testCase.points);
    NoCheckerCallBeforeCheck(problem, memfd, testCase, run, h);
    assert forall i :: 0 <= i < |before| ==> before[i] != invoke;
    assert invoke !in before;
    assert check == [invoke];
    CountInThreeParts(before, check, free, invoke);
  }

  /**
   * A submission that already failed, on a checker that does not run on
   * error, scores nothing and is judged WA without the checker being called.
   */
  lemma FailedSubmissionSkipsChecker(problem: Problem, memfd: bool, testCase: TestCase, run: Run, h: nat)
    requires PopulatedFlags(Standard, memfd, testCase, run) != {} && !testCase.checkerRunsOnError
    ensures GradeSpec(Standard, memfd, testCase, run).Ok?
    ensures GradeSpec(Standard, memfd, testCase, run).value.points == 0.0
    ensures WA in GradeSpec(Standard, memfd, testCase, run).value.flags
    ensures !InvokesChecker(GradeCalls(Standard, problem, memfd, testCase, run, h))
  {
    CheckerCalledOnlyThroughGate(problem, memfd, testCase, run, h);
  }

  /** A checker's decode failure becomes a zero-point WA with fixed feedback and does not escape. */
  lemma DecodeFailureRecovered(memfd: bool, testCase: TestCase, run: Run)
    requires StandardGrading.CheckerRuns(PopulatedFlags(Standard, memfd, testCase, run), testCase.checkerRunsOnError)
    requires run.checker.RaisedDecodeError?
    ensures GradeSpec(Standard, memfd, testCase, run).Ok?
    ensures GradeSpec(Standard, memfd, testCase, run).value.points == 0.0
    ensures GradeSpec(Standard, memfd, testCase, run).value.feedback == "invalid unicode"
    ensures WA in GradeSpec(Standard, memfd, testCase, run).value.flags
  {
  }

  /** A plain boolean answer is worth the case's points or nothing, and decides AC or WA. */
  lemma PlainAnswerScoring(memfd: bool, testCase: TestCase, run: Run, passed: bool)
    requires StandardGrading.CheckerRuns(PopulatedFlags(Standard, memfd, testCase, run), testCase.checkerRunsOnError)
    requires run.checker == Returned(Plain(passed))
    ensures GradeSpec(Standard, memfd, testCase, run).Ok?
    ensures GradeSpec(Standard, memfd, testCase, run).value.points == if passed then testCase.points else 0.0
    ensures (if passed then AC else WA) in GradeSpec(Standard, memfd, testCase, run).value.flags
    ensures GradeSpec(Standard, memfd, testCase, run).value.feedback == run.report.feedback
  {
  }

  /** Any exception the checker raises, other than a decode failure, escapes `grade`. */
  lemma CheckerExceptionEscapes(memfd: bool, testCase: TestCase, run: Run)
    requires StandardGrading.CheckerRuns(PopulatedFlags(Standard, memfd, testCase, run), testCase.checkerRunsOnError)
    requires run.checker.RaisedOther?
    ensures GradeSpec(Standard, memfd, testCase, run) == Raised(run.checker.error)
  {
  }

  /** With memory-backed capture the judge marks OLE exactly when the output is over the limit. */
  lemma OleMarkedExactlyOverLimit(problem: Problem, testCase: TestCase, run: Run, h: nat)
    ensures MarkOle(Submission) in GradeCalls(Standard, problem, true, testCase, run, h) <==>
            |run.stdout| > testCase.outputLimitLength
    ensures |run.stdout| > testCase.outputLimitLength ==> OLE in PopulatedFlags(Standard, true, testCase, run)
  {
    var calls := GradeCalls(Standard, problem, true, testCase, run, h);
    var launch := LaunchCalls(Standard, problem, true, testCase, true, h);
    var interact := InteractCalls(Standard, problem, true, testCase, run, h);
    var rest := calls[|launch| + |interact|..];
    assert calls == launch + interact + rest;
    assert MarkOle(Submission) !in launch;
    assert MarkOle(Submission) !in rest by {
      assert rest == [Populate(CapturedError(Standard, true, run))]
                     + CheckCalls(Standard, problem, true, testCase, run)
                     + (if Checked(Standard, true, testCase, run).Ok? then [FreeData] else []);
    }
  }

  /**
   * On the pipe path an overflow leaves the stderr empty and kills the
   * submission; on every path it is waited on exactly once, after the kill.
   */
  lemma PipeOverflowKilledAndWaited(problem: Problem, testCase: TestCase, run: Run, h: nat)
    ensures var calls := GradeCalls(Standard, problem, false, testCase, run, h);
      multiset(calls)[Wait(Submission)] == 1 &&
      multiset(calls)[Kill(Submission)] == (if run.communicate.OutputLimitExceeded? then 1 else 0)
    ensures run.communicate.OutputLimitExceeded? ==>
      CapturedError(Standard, false, run) == [] && CapturedOutput(Standard, false, run) == [] &&
      InteractCalls(Standard, problem, false, testCase, run, h)[1..] == [Kill(Submission), Wait(Submission)]
  {
    PipeWaitAndKillCounts(problem, testCase, run, h);
    if run.communicate.OutputLimitExceeded? {
      var interact := InteractCalls(Standard, problem, false, testCase, run, h);
      assert interact == [Communicate(testCase.outputLimitLength, StandardGrading.StderrLimit)] + [Kill(Submission)] + [Wait(Submission)];
    }
  }

  lemma PipeWaitAndKillCounts(problem: Problem, testCase: TestCase, run: Run, h: nat)
    ensures var calls := GradeCalls(Standard, problem, false, testCase, run, h);
      multiset(calls)[Wait(Submission)] == 1 &&
      multiset(calls)[Kill(Submission)] == (if run.communicate.OutputLimitExceeded? then 1 else 0)
  {
    var launch := LaunchCalls(Standard, problem, false, testCase, true, h);
    var interact := InteractCalls(Standard, problem, false, testCase, run, h);
    var after := AfterInteraction(Standard, problem, false, testCase, run);
    GradeCallsInThreeParts(Standard, problem, false, testCase, run, h);
    OnlyInteractionWaitsAndKills(Standard, problem, false, testCase, run, h);
    StandardInteractionWaitsOnce(problem, false, testCase, run, h);
    CountInThreeParts(launch, interact, after, Wait(Submission));
    CountInThreeParts(launch, interact, after, Kill(Submission));
  }

  // ---------------------------------------------------------------------
  // Both graders.
  // ---------------------------------------------------------------------

  /**
   * The launch step starts the submission exactly once and nothing else:
   * with the problem's limits, the wall time factor times the time limit
   * and the case's symlinks, reading the case's input (standard) or the
   * interactor's pipe (bridged), writing to the memory buffers, the
   * capture pipes or the interactor's pipe.
   */
  lemma LaunchStartsSubmissionOnce(kind: Kind, problem: Problem, memfd: bool, testCase: TestCase, withInput: bool, h: nat)
    ensures var calls := LaunchCalls(kind, problem, memfd, testCase, withInput, h);
      var stdin := if kind.BridgedInteractive? then PipeEnd(h + 2) else if withInput then InputFile else CapturePipe;
      var stdout := if kind.BridgedInteractive? then PipeEnd(h + 1) else if memfd then MemoryBuffer(h) else CapturePipe;
      var stderr := if kind.Standard? && memfd then MemoryBuffer(h + 1) else CapturePipe;
      var launch := LaunchSubmission(Limits(problem.timeLimit, problem.memoryLimit), testCase.wallTimeFactor * problem.timeLimit,
                                     testCase.symlinks, stdin, stdout, stderr);
      multiset(calls)[launch] == 1 &&
      forall i :: 0 <= i < |calls| ==>
        (calls[i].LaunchSubmission? ==> calls[i] == launch) && !calls[i].LaunchInteractor? && !calls[i].Wait?
  {
    match kind
    case Standard => StandardLaunchOnce(problem, memfd, testCase, withInput, h);
    case BridgedInteractive(setup) =>
      BridgedLaunchOnce(setup, problem, memfd, testCase, withInput, h);
      BridgedLaunchOnly(setup, problem, memfd, testCase, withInput, h);
      var calls := LaunchCalls(kind, problem, memfd, testCase, withInput, h);
      var launch := LaunchSubmission(Limits(problem.timeLimit, problem.memoryLimit), testCase.wallTimeFactor * problem.timeLimit,
                                     testCase.symlinks, PipeEnd(h + 2), PipeEnd(h + 1), CapturePipe);
      assert launch == SubmissionLaunch(problem, testCase, PipeEnd(h + 2), PipeEnd(h + 1), CapturePipe);
      assert multiset(calls)[launch] == 1;
  }

  lemma StandardLaunchOnce(problem: Problem, memfd: bool, testCase: TestCase, withInput: bool, h: nat)
    ensures var calls := LaunchCalls(Standard, problem, memfd, testCase, withInput, h);
      var stdin := if withInput then InputFile else CapturePipe;
      var launch := if memfd then SubmissionLaunch(problem, testCase, stdin, MemoryBuffer(h), MemoryBuffer(h + 1))
                    else SubmissionLaunch(problem, testCase, stdin, CapturePipe, CapturePipe);
      multiset(calls)[launch] == 1 &&
      forall i :: 0 <= i < |calls| ==>
        (calls[i].LaunchSubmission? ==> calls[i] == launch) && !calls[i].LaunchInteractor? && !calls[i].Wait?
  {
    var calls := LaunchCalls(Standard, problem, memfd, testCase, withInput, h);
    var stdin := if withInput then InputFile else CapturePipe;
    if memfd {
      var launch := SubmissionLaunch(problem, testCase, stdin, MemoryBuffer(h), MemoryBuffer(h + 1));
      assert calls == [OpenMemoryBuffer(h), OpenMemoryBuffer(h + 1)] + [launch];
      assert multiset(calls)[launch] == multiset([OpenMemoryBuffer(h), OpenMemoryBuffer(h + 1)])[launch] + 1;
    }
  }

  lemma BridgedLaunchOnce(setup: InteractiveSetup, problem: Problem, memfd: bool, testCase: TestCase, withInput: bool, h: nat)
    ensures var calls := LaunchCalls(BridgedInteractive(setup), problem, memfd, testCase, withInput, h);
      var launch := SubmissionLaunch(problem, testCase, PipeEnd(h + 2), PipeEnd(h + 1), CapturePipe);
      multiset(calls)[launch] == 1
  {
    var launch := SubmissionLaunch(problem, testCase, PipeEnd(h + 2), PipeEnd(h + 1), CapturePipe);
    var pipes, closes := [OpenPipe(h, h + 1), OpenPipe(h + 2, h + 3)], [Close(h + 2), Close(h + 1)];
    assert LaunchCalls(BridgedInteractive(setup), problem, memfd, testCase, withInput, h) == pipes + [launch] + closes;
    CountInThreeParts(pipes, [launch], closes, launch);
  }

  lemma BridgedLaunchOnly(setup: InteractiveSetup, problem: Problem, memfd: bool, testCase: TestCase, withInput: bool, h: nat)
    ensures var calls := LaunchCalls(BridgedInteractive(setup), problem, memfd, testCase, withInput, h);
      var launch := SubmissionLaunch(problem, testCase, PipeEnd(h + 2), PipeEnd(h + 1), CapturePipe);
      forall i :: 0 <= i < |calls| ==>
        (calls[i].LaunchSubmission? ==> calls[i] == launch) && !calls[i].LaunchInteractor? && !calls[i].Wait?
  {
  }

  /**
   * The check step makes at most one call, to the checker or to the
   * adapter; with no call its answer is a plain `False`, and it raises
   * exactly when the collaborator it called raised.
   */
  lemma CheckStepCallsOnce(kind: Kind, problem: Problem, memfd: bool, testCase: TestCase, run: Run)
    ensures var calls := CheckCalls(kind, problem, memfd, testCase, run);
      |calls| <= 1 && (calls == [] ==> Checked(kind, memfd, testCase, run) == Ok(Plain(false)))
    ensures kind.BridgedInteractive? ==> |CheckCalls(kind, problem, memfd, testCase, run)| == 1
    ensures Checked(kind, memfd, testCase, run).Raised? <==>
              CheckCalls(kind, problem, memfd, testCase, run) != [] &&
              (if kind.Standard? then run.checker.RaisedOther? else run.adapter.Raised?)
    ensures Checked(kind, memfd, testCase, run).Raised? ==>
              Checked(kind, memfd, testCase, run).error ==
              (if kind.Standard? then run.checker.error else run.adapter.error)
  {
  }

  /**
   * `grade` raises exactly what `check_result` raises; when it returns,
   * AC is set iff the normalised answer passed (or the sandbox set it), and
   * an empty checker feedback falls back to the sandbox's.
   */
  lemma GradeRaisesOnlyFromCheck(kind: Kind, memfd: bool, testCase: TestCase, run: Run)
    ensures GradeSpec(kind, memfd, testCase, run).Raised? <==> Checked(kind, memfd, testCase, run).Raised?
    ensures GradeSpec(kind, memfd, testCase, run).Raised? ==>
              GradeSpec(kind, memfd, testCase, run).error == Checked(kind, memfd, testCase, run).error
    ensures GradeSpec(kind, memfd, testCase, run).Ok? ==>
              var v := GradeSpec(kind, memfd, testCase, run).value;
              var c := StandardGrading.Normalise(Checked(kind, memfd, testCase, run).value, testCase.points);
              (AC in v.flags <==> c.passed || AC in run.report.flags) &&
              v.feedback == (if c.feedback != "" then c.feedback else run.report.feedback)
  {
  }

  /**
   * The merge keeps every flag the record had and adds only AC or WA;
   * the points are the normalised answer's.
   */
  lemma EarlierFlagsKept(kind: Kind, memfd: bool, testCase: TestCase, run: Run)
    requires GradeSpec(kind, memfd, testCase, run).Ok?
    ensures var v := GradeSpec(kind, memfd, testCase, run).value;
      PopulatedFlags(kind, memfd, testCase, run) <= v.flags &&
      v.flags - PopulatedFlags(kind, memfd, testCase, run) <= {AC, WA} &&
      v.points == StandardGrading.Normalise(Checked(kind, memfd, testCase, run).value, testCase.points).points
  {
  }

  lemma CountInThreeParts(a: seq<Call>, b: seq<Call>, c: seq<Call>, x: Call)
    ensures multiset(a + b + c)[x] == multiset(a)[x] + multiset(b)[x] + multiset(c)[x]
  {
  }

  /** The calls after interaction: population, the check, and `free_data` when the check returned. */
  function AfterInteraction(kind: Kind, problem: Problem, memfd: bool, testCase: TestCase, run: Run): seq<Call>
  {
    [Populate(CapturedError(kind, memfd, run))] + CheckCalls(kind, problem, memfd, testCase, run)
    + (if Checked(kind, memfd, testCase, run).Ok? then [FreeData] else [])
  }

  lemma GradeCallsInThreeParts(kind: Kind, problem: Problem, memfd: bool, testCase: TestCase, run: Run, h: nat)
    ensures GradeCalls(kind, problem, memfd, testCase, run, h) ==
            LaunchCalls(kind, problem, memfd, testCase, true, h) + InteractCalls(kind, problem, memfd, testCase, run, h)
            + AfterInteraction(kind, problem, memfd, testCase, run)
  {
  }

  lemma OnlyInteractionWaitsAndKills(kind: Kind, problem: Problem, memfd: bool, testCase: TestCase, run: Run, h: nat)
    ensures var launch, after := LaunchCalls(kind, problem, memfd, testCase, true, h), AfterInteraction(kind, problem, memfd, testCase, run);
      Wait(Submission) !in launch && Wait(Submission) !in after &&
      Wait(Interactor) !in launch && Wait(Interactor) !in after &&
      Kill(Submission) !in launch && Kill(Submission) !in after
  {
  }

  lemma StandardInteractionWaitsOnce(problem: Problem, memfd: bool, testCase: TestCase, run: Run, h: nat)
    ensures var calls := InteractCalls(Standard, problem, memfd, testCase, run, h);
      multiset(calls)[Wait(Submission)] == 1 && Wait(Interactor) !in calls &&
      multiset(calls)[Kill(Submission)] == (if !memfd && run.communicate.OutputLimitExceeded? then 1 else 0)
  {
  }

  lemma BridgedInteractionWaitsOnce(setup: InteractiveSetup, problem: Problem, memfd: bool, testCase: TestCase, run: Run, h: nat)
    ensures var calls := InteractCalls(BridgedInteractive(setup), problem, memfd, testCase, run, h);
      multiset(calls)[Wait(Submission)] == 1 && multiset(calls)[Wait(Interactor)] == 1
  {
  }

  /** The submission is waited on once, the interactor once in interactive mode and never otherwise. */
  lemma EachProcessWaitedOnce(kind: Kind, problem: Problem, memfd: bool, testCase: TestCase, run: Run, h: nat)
    ensures multiset(GradeCalls(kind, problem, memfd, testCase, run, h))[Wait(Submission)] == 1
    ensures multiset(GradeCalls(kind, problem, memfd, testCase, run, h))[Wait(Interactor)] ==
            if kind.BridgedInteractive? then 1 else 0
  {
    GradeCallsInThreeParts(kind, problem, memfd, testCase, run, h);
    OnlyInteractionWaitsAndKills(kind, problem, memfd, testCase, run, h);
    match kind
    case Standard => StandardInteractionWaitsOnce(problem, memfd, testCase, run, h);
    case BridgedInteractive(setup) => BridgedInteractionWaitsOnce(setup, problem, memfd, testCase, run, h);
  }

  lemma FreeDataOnlyAfterCheck(kind: Kind, problem: Problem, memfd: bool, testCase: TestCase, run: Run, h: nat)
    ensures FreeData !in SubmissionCalls(kind, problem, memfd, testCase, run, h)
    ensures FreeData !in CheckCalls(kind, problem, memfd, testCase, run)
  {
  }

  /** `free_data` is the last call of a `grade` that returns, and never made by one that raises. */
  lemma FreeDataLast(kind: Kind, problem: Problem, memfd: bool, testCase: TestCase, run: Run, h: nat)
    ensures var calls := GradeCalls(kind, problem, memfd, testCase, run, h);
      (GradeSpec(kind, memfd, testCase, run).Ok? ==> calls[|calls| - 1] == FreeData) &&
      multiset(calls)[FreeData] == (if GradeSpec(kind, memfd, testCase, run).Ok? then 1 else 0)
  {
    var ok := Checked(kind, memfd, testCase, run).Ok?;
    FreeDataOnlyAfterCheck(kind, problem, memfd, testCase, run, h);
    GradeRaisesOnlyFromCheck(kind, memfd, testCase, run);
    var before, check := SubmissionCalls(kind, problem, memfd, testCase, run, h), CheckCalls(kind, problem, memfd, testCase, run);
    FreeDataAppendedLast(before, check, ok);
    assert GradeCalls(kind, problem, memfd, testCase, run, h) == before + check + (if ok then [FreeData] else []);
    assert GradeSpec(kind, memfd, testCase, run).Ok? == ok;
  }

  /** A log that ends in `free_data` exactly when `ok`, with no `free_data` before it. */
  lemma FreeDataAppendedLast(before: seq<Call>, check: seq<Call>, ok: bool)
    requires FreeData !in before && FreeData !in check
    ensures var calls := before + check + (if ok then [FreeData] else []);
      (ok ==> calls[|calls| - 1] == FreeData) && multiset(calls)[FreeData] == (if ok then 1 else 0)
  {
    CountInThreeParts(before, check, if ok then [FreeData] else [], FreeData);
  }

  // ---------------------------------------------------------------------
  // The bridged interactive grader.
  // ---------------------------------------------------------------------

  /**
   * The adapter is consulted on every case, flagged or not, with the
   * interactor's limits and the feedback the problem allows.
   */
  lemma AdapterAlwaysConsulted(setup: InteractiveSetup, problem: Problem, memfd: bool, testCase: TestCase, run: Run, h: nat)
    ensures var calls := GradeCalls(BridgedInteractive(setup), problem, memfd, testCase, run, h);
      var limits := InteractorLimits(setup, problem);
      multiset(calls)[ParseReturnCode(testCase.points, limits.time, limits.memory,
                                      BridgedGrading.AdapterFeedback(setup.handler.feedback, run.interactorStderr),
                                      InteractorName, run.interactorStderr)] == 1
  {
    var limits := InteractorLimits(setup, problem);
    var parse := ParseReturnCode(testCase.points, limits.time, limits.memory,
                                 BridgedGrading.AdapterFeedback(setup.handler.feedback, run.interactorStderr),
                                 InteractorName, run.interactorStderr);
    GradeCallsInThreeParts(BridgedInteractive(setup), problem, memfd, testCase, run, h);
    assert parse !in LaunchCalls(BridgedInteractive(setup), problem, memfd, testCase, true, h);
    assert parse !in InteractCalls(BridgedInteractive(setup), problem, memfd, testCase, run, h);
  }

  /**
   * An exception from the adapter (a crashed interactor) escapes whatever
   * the submission's own flags; otherwise a flagged submission fails with
   * no points and an unflagged one gets the adapter's answer.
   */
  lemma InteractorFailureNotMasked(setup: InteractiveSetup, memfd: bool, testCase: TestCase, run: Run)
    ensures run.adapter.Raised? ==> GradeSpec(BridgedInteractive(setup), memfd, testCase, run) == Raised(run.adapter.error)
    ensures run.adapter.Ok? && run.report.flags != {} ==>
      GradeSpec(BridgedInteractive(setup), memfd, testCase, run).Ok? &&
      GradeSpec(BridgedInteractive(setup), memfd, testCase, run).value.points == 0.0 &&
      WA in GradeSpec(BridgedInteractive(setup), memfd, testCase, run).value.flags
    ensures run.adapter.Ok? && run.report.flags == {} ==>
      GradeSpec(BridgedInteractive(setup), memfd, testCase, run) ==
        Ok(StandardGrading.Merge(Populated(BridgedInteractive(setup), memfd, testCase, run),
                                 StandardGrading.Normalise(run.adapter.value, testCase.points)))
  {
  }

  /** The interactor's ceilings: two seconds beyond the submission's by default. */
  lemma InteractorOutlastsSubmission(setup: InteractiveSetup, problem: Problem, memfd: bool, testCase: TestCase, run: Run, h: nat)
    requires setup.handler.preprocessingTime.None?
    ensures var calls := InteractCalls(BridgedInteractive(setup), problem, memfd, testCase, run, h);
      calls[1].LaunchInteractor? && calls[1].limits.time == problem.timeLimit + 2.0 &&
      calls[1].args.answerFile == h + 4 && calls[1].extraFs == [testCase.inputPath]
  {
  }

  /**
   * The submission's pipe ends are closed before the interactor starts,
   * and the interactor's before either process is waited on.
   */
  lemma PipeEndsClosedBeforeWaiting(setup: InteractiveSetup, problem: Problem, memfd: bool, testCase: TestCase, run: Run, h: nat)
    ensures var calls := GradeCalls(BridgedInteractive(setup), problem, memfd, testCase, run, h);
      calls[0] == OpenPipe(h, h + 1) && calls[1] == OpenPipe(h + 2, h + 3) &&
      calls[2].LaunchSubmission? && calls[2].stdin == PipeEnd(h + 2) && calls[2].stdout == PipeEnd(h + 1) &&
      calls[3..5] == [Close(h + 2), Close(h + 1)] &&
      calls[6].LaunchInteractor? && calls[6].stdin == PipeEnd(h) && calls[6].stdout == PipeEnd(h + 3) &&
      calls[7..11] == [Close(h), Close(h + 3), Wait(Submission), Wait(Interactor)]
  {
  }

  // ---------------------------------------------------------------------
  // Worked scenarios.
  // ---------------------------------------------------------------------

  /**
   * A submission that fills the memory-backed capture up to the 1 MiB + 1 KiB
   * file-size ceiling against a 1 MiB limit and exits cleanly: OLE is
   * flagged, the checker is skipped, no points, WA.
   */
  lemma ScenarioOutputFlood(problem: Problem, testCase: TestCase, run: Run, h: nat)
    requires testCase.outputLimitLength == 1048576 && !testCase.checkerRunsOnError
    requires |run.stdout| == StandardGrading.OneMiB + StandardGrading.FsizeSlack && run.report.flags == {}
    ensures GradeSpec(Standard, true, testCase, run).Ok?
    ensures var v := GradeSpec(Standard, true, testCase, run).value;
      OLE in v.flags && WA in v.flags && AC !in v.flags && v.points == 0.0
    ensures !InvokesChecker(GradeCalls(Standard, problem, true, testCase, run, h))
  {
    FailedSubmissionSkipsChecker(problem, true, testCase, run, h);
  }

  /** A clean run whose checker answers `True` gets the case's full points and AC. */
  lemma ScenarioPlainTrue(memfd: bool, testCase: TestCase, run: Run)
    requires run.report.flags == {} && |run.stdout| <= testCase.outputLimitLength
    requires run.checker == Returned(Plain(true))
    ensures GradeSpec(Standard, memfd, testCase, run) ==
      Ok(Verdict({AC}, testCase.points, run.report.feedback, ""))
  {
    assert PopulatedFlags(Standard, memfd, testCase, run) == {};
    assert {} + {AC} == {AC};
  }

  /**
   * A submission over its time limit, graded by a checker that runs on
   * error and answers `True`: AC is added beside TLE, with the full points.
   */
  lemma ScenarioRunOnErrorPasses(memfd: bool, testCase: TestCase, run: Run)
    requires run.report.flags == {TLE} && |run.stdout| <= testCase.outputLimitLength
    requires testCase.checkerRunsOnError && run.checker == Returned(Plain(true))
    ensures GradeSpec(Standard, memfd, testCase, run) ==
      Ok(Verdict({TLE, AC}, testCase.points, run.report.feedback, ""))
  {
    assert PopulatedFlags(Standard, memfd, testCase, run) == {TLE};
    assert {TLE} + {AC} == {TLE, AC};
  }

  /**
   * An interactor killed for exceeding its own ceiling makes the adapter
   * raise an internal error; `grade` raises it, even when the submission
   * is itself flagged.
   */
  lemma ScenarioInteractorKilled(setup: InteractiveSetup, memfd: bool, testCase: TestCase, run: Run, message: string)
    requires run.adapter == Raised(InternalError(message))
    ensures GradeSpec(BridgedInteractive(setup), memfd, testCase, run) == Raised(InternalError(message))
  {
  }

  /** A checker that cannot decode binary output: zero points, WA, and `grade` completes. */
  lemma ScenarioBinaryOutput(memfd: bool, testCase: TestCase, run: Run)
    requires run.report.flags == {} && |run.stdout| <= testCase.outputLimitLength
    requires run.checker == RaisedDecodeError
    ensures GradeSpec(Standard, memfd, testCase, run) == Ok(Verdict({WA}, 0.0, "invalid unicode", ""))
  {
    assert PopulatedFlags(Standard, memfd, testCase, run) == {};
    assert {} + {WA} == {WA};
  }
}
