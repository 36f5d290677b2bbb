# DMOJ graders: verdict resolution and limits

This project models two graders of the DMOJ judge in Dafny:

- **`StandardGrader`** runs a submission against one test case. It launches the process with the problem's limits and captures stdout and stderr. Capture is either memory-backed or through pipes. It lets the sandbox report fill in the result record, and asks the checker for an answer only when no failure flag is set (or the checker runs on error). It then normalises a plain boolean answer, merges the answer into the record and frees the case data.
- **`BridgedInteractiveGrader`** connects the submission to a compiled interactor through two OS pipes. It validates its configuration at construction. It derives the interactor's time limit, memory limit and argument template, and always asks the contrib adapter (`parse_return_code`) before the submission's flags decide.

External code is abstracted away. This covers the sandbox, process launch, `populate_result`, the checker, the contrib adapter, the compiler and the temporary-file helper.

- What these collaborators report for one case is an input, the `Run` value.
- The interactor compiler is a function parameter.
- The contrib registry is a map.
- The calls that open, close, launch, wait on, kill or mark a process or descriptor, `communicate`, `populate_result`, the checker, `parse_return_code` and `free_data` are appended, in order, to a log, `Grader.calls`. Accessors on the test case and the streams are not logged (see "## Left out").
- Every descriptor the judge itself holds is tracked in `Grader.open`: memory buffers, pipe ends and the answer file.

The methods of `Grader` are proved against pure specification functions:

- `GradeSpec` gives the verdict or the exception.
- `GradeCalls` gives the calls, in order.

The lemmas in `GradingProperties` state what the source promises about those functions.

Files:

- `results.dfy` (`Results`): verdict flags, checker answers, errors, and the mutable `Result` record.
- `interfaces.dfy` (`Interfaces`): the test case, the external calls, and what collaborators report.
- `standard.dfy` (`StandardGrading`): the standard grader's pure decisions.
- `bridged.dfy` (`BridgedGrading`): the bridged grader's configuration, limits and verdict.
- `grader.dfy` (`Graders`): the `Grader` class with its steps, and the pipeline as functions.
- `properties.dfy` (`GradingProperties`): properties of the whole pipeline, descriptor accounting and worked scenarios.

Verdict flags are a `set<Flag>`:

- the source's `|=` is set union;
- `not result_flag` is the empty set.

Python inheritance becomes one `Grader` class with a `kind` field (`Standard` or `BridgedInteractive`). `Grade` dispatches each step on `kind`, as overriding does in the source.

The model follows the code in these places where one might expect otherwise.

- Points from a rich checker answer are copied as they are. They are not clipped to the case's value (`dmoj/graders/standard.py:47`). `Normalise` keeps a rich answer unchanged.
- In `_generate_interactor_binary`, a `files` value that is neither a string nor a list ends in an error that is not an `InternalError`. Depending on the value, `files.unwrap()` raises first, the `assert` on the problem root fires first, or `filenames` is read unbound. `SourceNames` models all of these as one `OtherError`; which of them is raised is not modelled.
- A missing problem root fails an `assert`, modelled as `OtherError` too.
- A checker that runs on error and passes adds AC to a record that already carries a failure flag, with the full points (`dmoj/graders/standard.py:46`): `ScenarioRunOnErrorPasses` gives TLE and AC together.
- `_launch_process` and `_interact_with_process` of the bridged grader close their descriptors without `try`/`finally`. If `binary.launch` raises (`dmoj/graders/bridged.py:64`), all four pipe ends stay open. If formatting the arguments or `interactor_binary.launch` raises (`dmoj/graders/bridged.py:96-103`), the interactor's two ends stay open and the submission is never waited on. The model takes launches to return, so it cannot exhibit these leaks; `GradeReleasesWhatItOpens` covers the paths where they do.

## Model

| member | source | states |
|---|---|---|
| Results.Result.constructor | dmoj/graders/standard.py:26 | a fresh record has no flags, no points, no feedback and no output |
| Results.Result.ApplyCheck | dmoj/graders/standard.py:46-49 | AC or WA is OR'd into the flags, points are overwritten, each feedback is replaced only by a non-empty one, output and time untouched |
| StandardGrading.OutputFsize | dmoj/graders/standard.py:99 | the memory-backed file-size ceiling is at least the executor's own, the output limit plus 1024, and 1 MiB, and equals one of them |
| StandardGrading.CheckResult | dmoj/graders/standard.py:58-90 | with the gate closed the answer is `False`; with it open the checker's answer is returned, a decode failure becomes a zero-point "invalid unicode" result, and exactly the other exceptions escape |
| StandardGrading.Normalise | dmoj/graders/standard.py:43-44 | a boolean `b` becomes passed `b` with the case's points or 0; a rich answer is kept, points unclipped |
| StandardGrading.Merge | dmoj/graders/standard.py:46-49 | no flag is removed and only AC or WA is added, AC iff passed (or already there), WA iff failed; points are the answer's; feedback fallbacks |
| StandardGrading.GateClosedScoresZero | dmoj/graders/standard.py:65-88 | with the gate closed the merged record has 0 points, WA, and its earlier feedback, whatever the checker would say |
| BridgedGrading.Join | dmoj/graders/bridged.py:129 | POSIX join: an absolute name replaces the root; otherwise the path is the root and the name, with one `/` between them unless the root is empty or already ends in `/` |
| BridgedGrading.SourceNames | dmoj/graders/bridged.py:122-126 | a string becomes a one-element list, a list is kept in order, anything else raises a non-internal error |
| BridgedGrading.JoinAll | dmoj/graders/bridged.py:129 | as many paths as names, each the join of the root with the name at the same position |
| BridgedGrading.RelativeSourcesUnderRoot | dmoj/graders/bridged.py:129 | every relative source name, the empty one included, lands under the problem root |
| BridgedGrading.InteractorBuild | dmoj/graders/bridged.py:121-134 | the compiler gets the joined names in order, flags defaulting to none, unbuffered defaulting to true, the configured language and time limit; it fails exactly on a bad `files` value or a missing root |
| BridgedGrading.ContribType | dmoj/graders/bridged.py:38 | the configured contrib type when one is set, `'default'` otherwise |
| BridgedGrading.SetUp | dmoj/graders/bridged.py:28-40 | a compile error becomes InternalError "interactor failed compiling" and CompileError never escapes; an unregistered contrib type (default `'default'`) raises InternalError; on success the adapter is the registry's |
| BridgedGrading.InteractorTimeLimit | dmoj/graders/bridged.py:82 | `(preprocessing_time or 2) + time_limit`, strictly above the time limit when no negative override is set |
| BridgedGrading.InteractorMemoryLimit | dmoj/graders/bridged.py:83 | the configured limit unless absent or zero, else the generator default |
| BridgedGrading.ArgsFormatString | dmoj/graders/bridged.py:84-87 | the configured template unless absent or empty, else the adapter's default |
| BridgedGrading.AdapterFeedback | dmoj/graders/bridged.py:54 | the adapter gets the decoded interactor stderr iff the problem shows feedback |
| BridgedGrading.CheckResult | dmoj/graders/bridged.py:42-59 | an adapter exception escapes; otherwise a flagged submission gets `False` and an unflagged one the adapter's answer |
| Graders.Grader.NewBridged | dmoj/graders/bridged.py:28-40 | a grader exists exactly when set-up succeeds, with the compiled interactor and the registered adapter; otherwise the set-up error is raised |
| Graders.Grader.OpenMemoryIO | dmoj/graders/standard.py:97-98 | a fresh buffer handle is opened and recorded |
| Graders.Grader.Pipe | dmoj/graders/bridged.py:62-63 | two fresh ends are opened and recorded |
| Graders.Grader.MakeTemp | dmoj/graders/bridged.py:89 | a fresh answer file holding the expected output is created |
| Graders.Grader.CloseHandle | dmoj/graders/bridged.py:73-74 | exactly that handle leaves the open set |
| Graders.Grader.RemoveTemp | dmoj/graders/bridged.py:89 | leaving the `mktemp` block removes the answer file from the open set |
| Graders.Grader.StandardLaunchProcess | dmoj/graders/standard.py:92-112 | the submission starts with the problem's limits, wall time factor × time limit, the case's symlinks; memory-backed capture opens two buffers and sets the ceiling to `OutputFsize`, pipe capture leaves it |
| Graders.Grader.StandardInteractWithProcess | dmoj/graders/standard.py:114-139 | memory-backed: wait, take the output, mark OLE iff it is over the limit, close both buffers; pipe: bounded communicate, on overflow empty stderr and a kill, then one wait |
| Graders.Grader.PopulateResult | dmoj/graders/standard.py:55-56 | the sandbox's flags, plus OLE when marked, are OR'd in; its feedback and time are copied |
| Graders.Grader.StandardCheckResult | dmoj/graders/standard.py:58-90 | the checker is called, with the output, the expected output and the point value, exactly when the gate is open; the answer is `StandardGrading.CheckResult`'s |
| Graders.Grader.BridgedLaunchProcess | dmoj/graders/bridged.py:61-74 | two pipes; the submission reads one and writes the other; its two ends are closed at once, the interactor's two are kept |
| Graders.Grader.BridgedInteractWithProcess | dmoj/graders/bridged.py:76-119 | the interactor's limits and template are fixed, it runs on the kept ends with the answer file and the input path, those ends are closed, both processes waited on, the answer file removed |
| Graders.Grader.BridgedCheckResult | dmoj/graders/bridged.py:42-59 | the adapter is asked once with the interactor's limits and feedback before the flags decide |
| Graders.Grader.LaunchProcess | dmoj/graders/standard.py:30 | the launch step of either grader, leaving the interaction step its handles |
| Graders.Grader.InteractWithProcess | dmoj/graders/standard.py:32 | the interaction step of either grader closes every handle the launch left and returns the captured stderr |
| Graders.Grader.CheckResult | dmoj/graders/standard.py:39 | the check step of either grader makes the calls of `CheckCalls` and answers `Checked` |
| Graders.Grader.RunSubmission | dmoj/graders/standard.py:25-37 | a fresh record, launch, interaction and population; the open set is as before and the record is `Populated` |
| Graders.Grader.Grade | dmoj/graders/standard.py:25-53 | the record returned or the exception raised is `GradeSpec`'s, the calls are `GradeCalls`, no handle stays open |
| GradingProperties.MemoryCaptureHandles | dmoj/graders/standard.py:96-128 | memory-backed capture opens two buffers and closes both |
| GradingProperties.MemoryLaunchHandles | dmoj/graders/standard.py:96-98 | the memory-backed launch opens the two buffers and closes nothing |
| GradingProperties.MemoryInteractionHandles | dmoj/graders/standard.py:118-128 | the memory-backed interaction opens nothing and closes both buffers |
| GradingProperties.PipeCaptureHandles | dmoj/graders/standard.py:100-138 | pipe capture holds no judge handle |
| GradingProperties.BridgedLaunchHandles | dmoj/graders/bridged.py:61-74 | four pipe ends are opened, the submission's two are closed |
| GradingProperties.BridgedInteractionHandles | dmoj/graders/bridged.py:89-117 | the answer file is created and removed, the interactor's two ends are closed |
| GradingProperties.GradeReleasesWhatItOpens | dmoj/graders/bridged.py:61-119 | over a whole `grade`, the handles opened are exactly the ones counted out, and every one is closed or removed again |
| GradingProperties.CheckerCalledOnlyThroughGate | dmoj/graders/standard.py:65 | the checker is called iff no flag is set after population or it runs on error, and then exactly once, on the output, the expected output and the point value |
| GradingProperties.NoCheckerCallBeforeCheck | dmoj/graders/standard.py:25-37 | launch, interaction and population never call the checker |
| GradingProperties.CheckerInvokedOnce | dmoj/graders/standard.py:65-81 | with the gate open, `grade` calls the checker exactly once |
| GradingProperties.FailedSubmissionSkipsChecker | dmoj/graders/standard.py:86-88 | a flagged submission on a checker that does not run on error gets 0 points and WA with no checker call |
| GradingProperties.DecodeFailureRecovered | dmoj/graders/standard.py:82-85 | a decode failure gives 0 points, WA, feedback "invalid unicode", and `grade` returns |
| GradingProperties.PlainAnswerScoring | dmoj/graders/standard.py:43-47 | a boolean answer is worth the case's points or nothing, and adds AC or WA |
| GradingProperties.CheckerExceptionEscapes | dmoj/graders/standard.py:66-85 | any other checker exception escapes `grade` |
| GradingProperties.OleMarkedExactlyOverLimit | dmoj/graders/standard.py:124-125 | with memory-backed capture OLE is marked iff the output is longer than the limit, and then OLE is flagged |
| GradingProperties.PipeOverflowKilledAndWaited | dmoj/graders/standard.py:130-138 | on overflow stderr is empty and the process is killed then waited on; it is waited on exactly once on every path |
| GradingProperties.LaunchStartsSubmissionOnce | dmoj/graders/standard.py:92-112 | the launch step of either grader starts the submission exactly once and nothing else, with the problem's limits, wall time factor × time limit, the case's symlinks, and the streams each grader wires up |
| GradingProperties.StandardLaunchOnce | dmoj/graders/standard.py:96-112 | the standard launch reads the case's input (or a pipe without one) and writes to the two memory buffers or to capture pipes, once |
| GradingProperties.BridgedLaunchOnce | dmoj/graders/bridged.py:61-74 | the bridged launch starts the submission exactly once, reading the second pipe and writing the first |
| GradingProperties.BridgedLaunchOnly | dmoj/graders/bridged.py:61-74 | the bridged launch starts no other process, no interactor, and waits on nothing |
| GradingProperties.StandardInteractionWaitsOnce | dmoj/graders/standard.py:114-139 | the standard interaction waits on the submission exactly once, never on an interactor, and kills it only on a pipe overflow |
| GradingProperties.BridgedInteractionWaitsOnce | dmoj/graders/bridged.py:76-119 | the bridged interaction waits on the submission once and on the interactor once |
| GradingProperties.CheckStepCallsOnce | dmoj/graders/standard.py:58-90 | the check step makes at most one checker or adapter call (always one under the bridged grader); with none its answer is `False`; it raises exactly when the checker or adapter it called raised, with that error |
| GradingProperties.GradeRaisesOnlyFromCheck | dmoj/graders/standard.py:25-53 | `grade` raises exactly what `check_result` raises; when it returns, AC is set iff the normalised answer passed or the sandbox set it, and empty checker feedback falls back to the sandbox's |
| GradingProperties.PipeWaitAndKillCounts | dmoj/graders/standard.py:130-138 | with pipe capture `grade` waits on the submission exactly once and kills it once on overflow, never otherwise |
| GradingProperties.EarlierFlagsKept | dmoj/graders/standard.py:46-47 | every flag from population survives, only AC or WA is added, points are the normalised answer's |
| GradingProperties.EachProcessWaitedOnce | dmoj/graders/bridged.py:116-117 | the submission is waited on exactly once; the interactor once under the bridged grader and never otherwise |
| GradingProperties.FreeDataLast | dmoj/graders/standard.py:51-53 | `free_data` is the last call of a `grade` that returns and is not made when it raises |
| GradingProperties.AdapterAlwaysConsulted | dmoj/graders/bridged.py:47-57 | `parse_return_code` is called exactly once, flagged or not, with the interactor's limits and allowed feedback |
| GradingProperties.InteractorFailureNotMasked | dmoj/graders/bridged.py:43-59 | an adapter exception escapes whatever the flags; a flagged submission gets 0 points and WA; an unflagged one the adapter's merged answer |
| GradingProperties.InteractorOutlastsSubmission | dmoj/graders/bridged.py:81-111 | by default the interactor gets the time limit plus 2 s, the answer file and access to the input path |
| GradingProperties.PipeEndsClosedBeforeWaiting | dmoj/graders/bridged.py:62-117 | the submission's ends are closed before the interactor starts and the interactor's before either process is waited on |
| GradingProperties.ScenarioOutputFlood | dmoj/graders/standard.py:124-125 | output filling the 1 MiB + 1 KiB file-size ceiling against a 1 MiB limit: OLE and WA, 0 points, no checker call |
| GradingProperties.ScenarioRunOnErrorPasses | dmoj/graders/standard.py:46-47 | a TLE submission whose run-on-error checker answers `True` gets TLE and AC with the full points |
| GradingProperties.ScenarioPlainTrue | dmoj/graders/standard.py:43-49 | a clean run whose checker says `True` gets exactly AC and the full points |
| GradingProperties.ScenarioInteractorKilled | dmoj/graders/bridged.py:43-48 | an adapter's internal error escapes `grade` |
| GradingProperties.ScenarioBinaryOutput | dmoj/graders/standard.py:82-85 | a checker that cannot decode the output gives exactly WA, 0 points, "invalid unicode" |

## Left out

- Process launching, sandbox enforcement, and `wait`, `kill` and `communicate` themselves are external. They appear as logged calls, and their results come from `Run`.
- A launch that raises is not modelled. Every collaborator call is taken to return, apart from the checker, the adapter and the interactor compiler.
- These accessors are neither logged nor able to fail in the model; each is taken to return: `case.input_data_io()` (`dmoj/graders/standard.py:28`, `dmoj/graders/bridged.py:90`), `case.checker()` (`dmoj/graders/standard.py:63`, called before the gate, so a failure there would escape even for a flagged submission), `case.output_data()` (`dmoj/graders/standard.py:69`, `dmoj/graders/bridged.py:80`), `MemoryIO.to_bytes()` (`dmoj/graders/standard.py:121`, `127`), the interactor's and the submission's `stderr.read()` (`dmoj/graders/bridged.py:47`, `119`), and the adapter's `get_interactor_args_format_string()` (`dmoj/graders/bridged.py:86`, whose default template is an input of the model).
- `populate_result` lives in the executor and is not part of this model. Its effect is assumed:
  - the sandbox's flags are OR'd in, plus OLE when the judge marked the process;
  - its feedback and execution time are copied.
- Pipe capture marks OLE inside `communicate`, which is not part of this model. Such marking reaches the record only through the sandbox's reported flags.
- Pipe payloads and the concurrency between submission and interactor are not modelled, only descriptor ownership.
- The temporary answer file and the memory buffers are judge handles in the same open set as the pipe ends.
- `shlex.quote`, `shlex.split` and `str.format` are not modelled. The template and its three substitutions are recorded unexpanded in `InteractorArgs`.
- `utf8text` decoding is recorded as `Utf8TextOf(stderr)` rather than computed.
- Checker and adapter implementations, the compiler, `executors`, `LazyBytes` and `MemoryIO` are not part of this model.
- `ParseReturnCode` leaves out the adapter's first two arguments, the interactor process and `interactor_binary` (`dmoj/graders/bridged.py:49-50`).
- The checker's keyword arguments other than `point_value` are omitted from `InvokeChecker`: `submission_source`, `judge_input`, `case_position`, `batch`, `submission_language`, `binary_data`, `execution_time`, `problem_id`, `case` and `result`.
- The checker's ability to mutate the `result` it is passed is not modelled.
- The numeric values of the flag constants (dmoj/result.py) are not part of this model. The initial values of a fresh `Result` are taken to be empty.
- Times and points are `real`. Floating-point rounding of `wall_time_factor * time_limit` and of points is not modelled.
- The submission's own compilation and `_generate_binary` (dmoj/graders/base.py, not part of this model) are left out. The executor's file-size ceiling is a parameter.
- A `preprocessing_time` of `None` or `0` both mean 2 s. A negative override is accepted as in the source.
- BridgedGrading.InteractorTimeLimit: the strict margin over the time limit is only stated when the override is absent or non-negative. With a negative override the source gives less time.
