/**
 * The decisions of the bridged interactive grader (dmoj/graders/bridged.py)
 * that do not depend on grader state: construction-time validation, the
 * interactor's source list, its limits and argument template, the feedback
 * handed to the contrib adapter, and the final verdict.
 */
module BridgedGrading {
  import opened Results
  import opened Interfaces

  /** The interactor's `files` entry: one name, a list of names, or anything else. */
  datatype FilesConfig = SingleFile(name: string) | FileList(names: seq<string>) | OtherValue

  /** The problem's `interactive` configuration; `None` is a key that is absent. */
  datatype HandlerData = HandlerData(
    files: FilesConfig,
    flags: Option<seq<string>>,
    unbuffered: Option<bool>,
    lang: string,
    compilerTimeLimit: Option<real>,
    contribType: Option<string>,
    preprocessingTime: Option<real>,
    memoryLimit: Option<int>,
    argsFormatString: Option<string>,
    feedback: bool)

  /** The arguments of `compile_with_auxiliary_files`. */
  datatype BuildRequest = BuildRequest(
    sources: seq<string>, flags: seq<string>, lang: string, compilerTimeLimit: Option<real>, unbuffered: bool)

  /** A compiled interactor; its contents are the compiler's business. */
  datatype Binary = Binary(id: nat)

  /** A registry entry of `contrib_modules`. */
  datatype Adapter = Adapter(defaultArgsFormatString: string)

  /** What construction leaves behind when it succeeds. */
  datatype Setup = Setup(interactorBinary: Binary, contribType: string, adapter: Adapter)

  const DefaultContribType: string := "default"
  const DefaultPreprocessingTime: real := 2.0
  const DevNull: string := "/dev/null"
  const InteractorCompileFailed: string := "interactor failed compiling"

  /** The message raised for an adapter name missing from the registry. */
  function NotAContribModule(contribType: string): string
  {
    contribType + " is not a valid contrib module"
  }

  /**
   * `os.path.join(root, name)` on POSIX: an absolute name replaces the root;
   * otherwise the name is appended, with one separator when the root does
   * not already end in one.
   */
  function Join(root: string, name: string): (path: string)
    ensures |name| > 0 && name[0] == '/' ==> path == name
    ensures !(|name| > 0 && name[0] == '/') ==>
      |root| <= |path| && path[..|root|] == root &&
      |name| <= |path| && path[|path| - |name|..] == name &&
      |path| <= |root| + 1 + |name|
    ensures !(|name| > 0 && name[0] == '/') ==> path == root + name || path == root + "/" + name
    ensures !(|name| > 0 && name[0] == '/') && root != [] && root[|root| - 1] != '/' ==> path == root + "/" + name
    ensures !(|name| > 0 && name[0] == '/') && (root == [] || root[|root| - 1] == '/') ==> path == root + name
  {
    if |name| > 0 && name[0] == '/' then name
    else if root == [] || root[|root| - 1] == '/' then root + name
    else root + "/" + name
  }

  /** The names the `files` entry lists: a string is one name, a list is copied in order. */
  function SourceNames(files: FilesConfig): (r: Outcome<seq<string>>)
    ensures files.SingleFile? ==> r == Ok([files.name])
    ensures files.FileList? ==> r == Ok(files.names)
    ensures r.Raised? <==> files.OtherValue?
    ensures r.Raised? ==> r.error.OtherError?
  {
    match files
    case SingleFile(name) => Ok([name])
    case FileList(names) => Ok(names)
    case OtherValue => Raised(OtherError("filenames is unbound"))
  }

  /** Every name joined to the problem root, in order. */
  function JoinAll(root: string, names: seq<string>): (paths: seq<string>)
    ensures |paths| == |names|
    ensures forall i :: 0 <= i < |names| ==> paths[i] == Join(root, names[i])
  {
    if names == [] then [] else [Join(root, names[0])] + JoinAll(root, names[1..])
  }

  /** A relative source name always lands under the problem root. */
  lemma {:induction false} RelativeSourcesUnderRoot(root: string, names: seq<string>)
    requires forall i :: 0 <= i < |names| ==> !(|names[i]| > 0 && names[i][0] == '/')
    ensures forall i :: 0 <= i < |names| ==>
      |root| <= |JoinAll(root, names)[i]| && JoinAll(root, names)[i][..|root|] == root
  {
    forall i | 0 <= i < |names|
      ensures |root| <= |JoinAll(root, names)[i]| && JoinAll(root, names)[i][..|root|] == root
    {
      assert JoinAll(root, names)[i] == Join(root, names[i]);
    }
  }

  /**
   * `_generate_interactor_binary` up to the compiler call: the normalised
   * source list, with `flags` defaulting to none and `unbuffered` to true.
   */
  function InteractorBuild(handler: HandlerData, problemRoot: Option<string>): (r: Outcome<BuildRequest>)
    ensures r.Ok? ==> problemRoot.Some? && SourceNames(handler.files).Ok?
    ensures r.Ok? ==> r.value.sources == JoinAll(problemRoot.value, SourceNames(handler.files).value)
    ensures r.Ok? ==> |r.value.sources| == |SourceNames(handler.files).value|
    ensures r.Ok? ==> r.value.flags == (if handler.flags.Some? then handler.flags.value else [])
    ensures r.Ok? ==> r.value.unbuffered == (handler.unbuffered.None? || handler.unbuffered.value)
    ensures r.Ok? ==> r.value.lang == handler.lang && r.value.compilerTimeLimit == handler.compilerTimeLimit
    ensures r.Raised? <==> handler.files.OtherValue? || problemRoot.None?
    ensures r.Raised? ==> r.error.OtherError?
  {
    match SourceNames(handler.files)
    case Raised(e) => Raised(e)
    case Ok(names) =>
      if problemRoot.None? then Raised(OtherError("problem root is missing"))
      else
        Ok(BuildRequest(
          JoinAll(problemRoot.value, names),
          if handler.flags.Some? then handler.flags.value else [],
          handler.lang,
          handler.compilerTimeLimit,
          if handler.unbuffered.Some? then handler.unbuffered.value else true))
  }

  /** The contrib type named by the configuration, `'default'` when absent. */
  function ContribType(handler: HandlerData): (contribType: string)
    ensures handler.contribType.Some? ==> contribType == handler.contribType.value
    ensures handler.contribType.None? ==> contribType == DefaultContribType
  {
    if handler.contribType.Some? then handler.contribType.value else DefaultContribType
  }

  /**
   * Construction of the bridged grader: compile the interactor (a compile
   * error becomes an internal error), then look the contrib type up in the
   * registry (an unknown name is an internal error).
   */
  function SetUp(handler: HandlerData, problemRoot: Option<string>,
                 compile: BuildRequest -> Outcome<Binary>, registry: map<string, Adapter>): (r: Outcome<Setup>)
    ensures r.Raised? ==> !r.error.CompileError?
    ensures InteractorBuild(handler, problemRoot).Ok? &&
            compile(InteractorBuild(handler, problemRoot).value).Raised? &&
            compile(InteractorBuild(handler, problemRoot).value).error.CompileError? ==>
      r == Raised(InternalError(InteractorCompileFailed))
    ensures InteractorBuild(handler, problemRoot).Ok? &&
            compile(InteractorBuild(handler, problemRoot).value).Ok? ==>
      (r.Ok? <==> ContribType(handler) in registry) &&
      (r.Raised? ==> r.error == InternalError(NotAContribModule(ContribType(handler))))
    ensures r.Ok? ==>
      InteractorBuild(handler, problemRoot).Ok? &&
      compile(InteractorBuild(handler, problemRoot).value) == Ok(r.value.interactorBinary) &&
      r.value.contribType == ContribType(handler) &&
      r.value.contribType in registry && r.value.adapter == registry[r.value.contribType]
  {
    match InteractorBuild(handler, problemRoot)
    case Raised(e) => Raised(e)
    case Ok(request) =>
      match compile(request)
      case Raised(e) =>
        if e.CompileError? then Raised(InternalError(InteractorCompileFailed)) else Raised(e)
      case Ok(binary) =>
        var contribType := ContribType(handler);
        if contribType in registry then Ok(Setup(binary, contribType, registry[contribType]))
        else Raised(InternalError(NotAContribModule(contribType)))
  }

  /**
   * The interactor's time limit: the preprocessing allowance (two seconds
   * when absent or zero) on top of the problem's time limit.
   */
  function InteractorTimeLimit(preprocessingTime: Option<real>, timeLimit: real): (t: real)
    ensures preprocessingTime.None? || preprocessingTime.value == 0.0 ==> t == timeLimit + DefaultPreprocessingTime
    ensures preprocessingTime.Some? && preprocessingTime.value != 0.0 ==> t == timeLimit + preprocessingTime.value
    ensures (preprocessingTime.None? || preprocessingTime.value >= 0.0) ==> t > timeLimit
  {
    (if preprocessingTime.Some? && preprocessingTime.value != 0.0 then preprocessingTime.value
     else DefaultPreprocessingTime) + timeLimit
  }

  /** The interactor's memory limit: the configured one unless absent or zero, else the generator default. */
  function InteractorMemoryLimit(memoryLimit: Option<int>, generatorMemoryLimit: int): (m: int)
    ensures memoryLimit.Some? && memoryLimit.value != 0 ==> m == memoryLimit.value
    ensures memoryLimit.None? || memoryLimit.value == 0 ==> m == generatorMemoryLimit
  {
    if memoryLimit.Some? && memoryLimit.value != 0 then memoryLimit.value else generatorMemoryLimit
  }

  /** The argument template: the configured string unless absent or empty, else the adapter's default. */
  function ArgsFormatString(configured: Option<string>, adapterDefault: string): (template: string)
    ensures configured.Some? && configured.value != "" ==> template == configured.value
    ensures configured.None? || configured.value == "" ==> template == adapterDefault
    ensures template == "" ==> adapterDefault == ""
  {
    if configured.Some? && configured.value != "" then configured.value else adapterDefault
  }

  /** The feedback handed to the adapter: the decoded stderr only when the problem shows feedback. */
  function AdapterFeedback(showFeedback: bool, stderr: seq<byte>): (f: FeedbackArg)
    ensures f.Utf8TextOf? <==> showFeedback
    ensures f.Utf8TextOf? ==> f.raw == stderr
  {
    if showFeedback then Utf8TextOf(stderr) else NoFeedback
  }

  /**
   * `check_result`: the adapter's answer is obtained first, so an exception
   * it raises escapes whatever the submission's flags; otherwise a flagged
   * submission fails outright and an unflagged one gets the adapter's answer.
   */
  function CheckResult(flags: set<Flag>, parsed: Outcome<CheckerOutput>): (r: Outcome<CheckerOutput>)
    ensures parsed.Raised? ==> r == parsed
    ensures parsed.Ok? && flags != {} ==> r == Ok(Plain(false))
    ensures flags == {} ==> r == parsed
  {
    if parsed.Raised? then parsed
    else if flags != {} then Ok(Plain(false))
    else parsed
  }
}
