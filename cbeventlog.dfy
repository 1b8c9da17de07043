/**
  The `cbeventlog` command: build one events log for a node, either from
  the node itself (`node`) or from a zipped cbcollect (`cbcollect`).

  `run` is modelled step by step. The collaborators it calls (logger set-up,
  event-list parsing, the working directory, the registered parsers, merging
  and filtering) are opaque: an `Env` gives each one's outcome as a function
  of its arguments, and `run` records every call to a collaborator and every
  call to the logger in a trace, so that which steps run, in what order,
  with what arguments and what error comes back can all be stated. (The
  logger is set to the warning level, so the two `Info` calls write nothing;
  they are still calls `run` makes.)
*/
module CbEventLog {
  import opened Wrappers
  import opened Values

  /** A Go `error` result: `nil`, or an error with its message. */
  datatype Outcome = Pass | Fail(error: string)

  /** What `utilities.GetEventList` returns: a list that may be nil, or an error. */
  datatype ListResult = ListOk(events: Option<seq<EventType>>) | ListErr(error: string)

  /** What `os.Getwd` returns. */
  datatype PathResult = PathOk(path: string) | PathErr(error: string)

  /** An entry of `parsers.ParserFunctions`: one kind of log and the parsers run over it. */
  datatype Parser = Parser(name: string)

  /** The flags both commands share; an unset flag reads as "". */
  datatype Options = Options(includeEvents: string, excludeEvents: string, logPath: string)

  /** The flags of the `node` command. */
  datatype NodeFlags = NodeFlags(username: string, password: string, node: string, nodeName: string, options: Options)

  /** The flags of the `cbcollect` command. */
  datatype CbcollectFlags = CbcollectFlags(path: string, nodeName: string, options: Options)

  /** The opaque collaborators of `run`, each as the outcome it gives for its arguments. */
  datatype Env = Env(
    loggerInit: Outcome,
    getEventList: string -> ListResult,
    getwd: PathResult,
    runParsers: (Parser, Credentials, string, string) -> Outcome,
    mergeEventLogs: Credentials -> Outcome,
    filterEvents: (Credentials, seq<EventType>, bool) -> Outcome)

  /** One call `run` makes, to a collaborator or to the logger. */
  datatype Step =
    | InitLogger
    | GetEventList(list: string)
    | Getwd
    | Info(message: string)
    | RunParsers(parser: Parser, cred: Credentials, cbcollectPath: string, logPath: string)
    | ParserWarning(parserName: string, error: string)
    | MergeEventLogs(cred: Credentials)
    | MergeWarning(error: string)
    | FilterEvents(cred: Credentials, events: seq<EventType>, including: bool)
    | FilterWarning(error: string)

  /** The error `run` returns and the steps it took. */
  datatype RunResult = RunResult(err: Outcome, trace: seq<Step>)

  const BothListsMessage := "cannot give both include-events and exclude-events flags"
  const LoggerInitPrefix := "could not initialize logger: "
  const StartedMessage := "Event Log creation started"
  const FinishedMessage := "Event Log creation finished successfully"

  /** Both event lists were given, which `run` refuses before doing anything. */
  predicate BothLists(opts: Options) {
    opts.includeEvents != "" && opts.excludeEvents != ""
  }

  /** The flag whose value `run` parses as the event list. */
  function ListFlag(opts: Options): string {
    if opts.includeEvents != "" then opts.includeEvents else opts.excludeEvents
  }

  /** The directory the parsers write to: the flag, or the working directory when it is unset. */
  function LogPath(opts: Options, env: Env): string {
    if opts.logPath != "" then opts.logPath
    else match env.getwd
      case PathOk(p) => p
      case PathErr(_) => ""
  }

  /** `run` gets past its checks and set-up and starts the parsers. */
  predicate ReachesParsers(opts: Options, env: Env) {
    && !BothLists(opts)
    && env.loggerInit.Pass?
    && env.getEventList(ListFlag(opts)).ListOk?
    && (opts.logPath == "" ==> env.getwd.PathOk?)
  }

  /** The steps of attempting one parser entry. */
  function Attempt(p: Parser, runParsers: (Parser, Credentials, string, string) -> Outcome,
                   cred: Credentials, cbcollectPath: string, logPath: string): seq<Step>
  {
    match runParsers(p, cred, cbcollectPath, logPath)
    case Pass => [RunParsers(p, cred, cbcollectPath, logPath)]
    case Fail(e) => [RunParsers(p, cred, cbcollectPath, logPath), ParserWarning(p.name, e)]
  }

  /** The steps of the parser loop over `registry`, in order. */
  function ParserSteps(registry: seq<Parser>, runParsers: (Parser, Credentials, string, string) -> Outcome,
                       cred: Credentials, cbcollectPath: string, logPath: string): seq<Step>
  {
    if registry == [] then []
    else
      ParserSteps(registry[..|registry| - 1], runParsers, cred, cbcollectPath, logPath)
        + Attempt(registry[|registry| - 1], runParsers, cred, cbcollectPath, logPath)
  }

  /** The steps before the parser loop, when `run` gets that far. */
  function Prelude(opts: Options): seq<Step> {
    [InitLogger, GetEventList(ListFlag(opts))] + (if opts.logPath == "" then [Getwd] else []) + [Info(StartedMessage)]
  }

  /** The merge and the optional filter at the end of `run`, after the steps `done`. */
  function Conclude(done: seq<Step>, cred: Credentials, events: Option<seq<EventType>>, including: bool, env: Env): RunResult {
    var merging := done + [MergeEventLogs(cred)];
    match env.mergeEventLogs(cred)
    case Fail(e) => RunResult(Fail(e), merging + [MergeWarning(e)])
    case Pass =>
      var finished := merging + [Info(FinishedMessage)];
      match events
      case None => RunResult(Pass, finished)
      case Some(ev) =>
        var filtering := finished + [FilterEvents(cred, ev, including)];
        match env.filterEvents(cred, ev, including)
        case Pass => RunResult(Pass, filtering)
        case Fail(e) => RunResult(Fail(e), filtering + [FilterWarning(e)])
  }

  /** What `run` does with the given flags, credentials, cbcollect path and parser registry. */
  function RunSpec(opts: Options, cred: Credentials, cbcollectPath: string, registry: seq<Parser>, env: Env): RunResult {
    if BothLists(opts) then RunResult(Fail(BothListsMessage), [])
    else if env.loggerInit.Fail? then RunResult(Fail(LoggerInitPrefix + env.loggerInit.error), [InitLogger])
    else
      var listing := [InitLogger, GetEventList(ListFlag(opts))];
      match env.getEventList(ListFlag(opts))
      case ListErr(e) => RunResult(Fail(e), listing)
      case ListOk(events) =>
        if opts.logPath == "" && env.getwd.PathErr? then RunResult(Fail(env.getwd.error), listing + [Getwd])
        else
          Conclude(Prelude(opts) + ParserSteps(registry, env.runParsers, cred, cbcollectPath, LogPath(opts, env)),
                   cred, events, opts.includeEvents != "", env)
  }

  /** Both event lists given: `run` fails at once, before the logger or any other step. */
  lemma BothListsRejected(opts: Options, cred: Credentials, cbcollectPath: string, registry: seq<Parser>, env: Env)
    requires BothLists(opts)
    ensures RunSpec(opts, cred, cbcollectPath, registry, env) == RunResult(Fail(BothListsMessage), [])
  {
  }

  /** A logger that cannot start fails the run with the wrapped error, before the event list is read. */
  lemma LoggerInitFailure(opts: Options, cred: Credentials, cbcollectPath: string, registry: seq<Parser>, env: Env)
    requires !BothLists(opts) && env.loggerInit.Fail?
    ensures RunSpec(opts, cred, cbcollectPath, registry, env)
         == RunResult(Fail(LoggerInitPrefix + env.loggerInit.error), [InitLogger])
  {
  }

  /** An event list that does not parse is returned as the error, before the log path is resolved or any parser runs. */
  lemma ListErrorReturned(opts: Options, cred: Credentials, cbcollectPath: string, registry: seq<Parser>, env: Env)
    requires !BothLists(opts) && env.loggerInit.Pass? && env.getEventList(ListFlag(opts)).ListErr?
    ensures RunSpec(opts, cred, cbcollectPath, registry, env)
         == RunResult(Fail(env.getEventList(ListFlag(opts)).error), [InitLogger, GetEventList(ListFlag(opts))])
  {
  }

  /** With no log path given and no working directory, `run` fails before any parser runs. */
  lemma GetwdFailure(opts: Options, cred: Credentials, cbcollectPath: string, registry: seq<Parser>, env: Env)
    requires !BothLists(opts) && env.loggerInit.Pass? && env.getEventList(ListFlag(opts)).ListOk?
    requires opts.logPath == "" && env.getwd.PathErr?
    ensures RunSpec(opts, cred, cbcollectPath, registry, env)
         == RunResult(Fail(env.getwd.error), [InitLogger, GetEventList(ListFlag(opts)), Getwd])
  {
  }

  /**
    Concatenation is associative. Dafny knows this; the lemma only makes the
    step explicit so that the loop invariant of `Run` is cheap to maintain.
  */
  lemma AppendAssociates(a: seq<Step>, b: seq<Step>, c: seq<Step>)
    ensures (a + b) + c == a + (b + c)
  {
  }

  /** One more turn of the parser loop appends that entry's attempt. */
  lemma ParserStepsExtend(registry: seq<Parser>, i: nat, runParsers: (Parser, Credentials, string, string) -> Outcome,
                          cred: Credentials, cbcollectPath: string, logPath: string)
    requires i < |registry|
    ensures ParserSteps(registry[..i + 1], runParsers, cred, cbcollectPath, logPath)
         == ParserSteps(registry[..i], runParsers, cred, cbcollectPath, logPath)
            + Attempt(registry[i], runParsers, cred, cbcollectPath, logPath)
  {
    assert registry[..i + 1][..i] == registry[..i];
  }

  /** Once `run` reaches the parsers, what remains is the loop and then `Conclude`. */
  lemma RunSpecConcludes(opts: Options, cred: Credentials, cbcollectPath: string, registry: seq<Parser>, env: Env)
    requires ReachesParsers(opts, env)
    ensures RunSpec(opts, cred, cbcollectPath, registry, env)
         == Conclude(Prelude(opts) + ParserSteps(registry, env.runParsers, cred, cbcollectPath, LogPath(opts, env)),
                     cred, env.getEventList(ListFlag(opts)).events, opts.includeEvents != "", env)
  {
  }

  /** `run`: the shared body of both commands. */
  method Run(opts: Options, cred: Credentials, cbcollectPath: string, registry: seq<Parser>, env: Env)
    returns (err: Outcome, trace: seq<Step>)
    ensures RunResult(err, trace) == RunSpec(opts, cred, cbcollectPath, registry, env)
  {
    trace := [];
    if opts.includeEvents != "" && opts.excludeEvents != "" {
      BothListsRejected(opts, cred, cbcollectPath, registry, env);
      return Fail(BothListsMessage), trace;
    }

    trace := trace + [InitLogger];
    if env.loggerInit.Fail? {
      LoggerInitFailure(opts, cred, cbcollectPath, registry, env);
      return Fail(LoggerInitPrefix + env.loggerInit.error), trace;
    }

    var listing: ListResult;
    var including := false;
    if opts.includeEvents != "" {
      trace := trace + [GetEventList(opts.includeEvents)];
      listing := env.getEventList(opts.includeEvents);
      including := true;
    } else {
      trace := trace + [GetEventList(opts.excludeEvents)];
      listing := env.getEventList(opts.excludeEvents);
    }
    if listing.ListErr? {
      ListErrorReturned(opts, cred, cbcollectPath, registry, env);
      return Fail(listing.error), trace;
    }
    assert trace == [InitLogger, GetEventList(ListFlag(opts))];
    var events := listing.events;

    var logPath := opts.logPath;
    if logPath == "" {
      trace := trace + [Getwd];
      match env.getwd
      case PathErr(e) =>
        GetwdFailure(opts, cred, cbcollectPath, registry, env);
        return Fail(e), trace;
      case PathOk(p) =>
        logPath := p;
    }

    trace := trace + [Info(StartedMessage)];
    ghost var started := trace;
    assert started == Prelude(opts);
    assert logPath == LogPath(opts, env);
    for i := 0 to |registry|
      invariant trace == started + ParserSteps(registry[..i], env.runParsers, cred, cbcollectPath, logPath)
    {
      ghost var before := trace;
      var log := registry[i];
      trace := trace + [RunParsers(log, cred, cbcollectPath, logPath)];
      var parseErr := env.runParsers(log, cred, cbcollectPath, logPath);
      if parseErr.Fail? {
        trace := trace + [ParserWarning(log.name, parseErr.error)];
      }
      assert trace == before + Attempt(log, env.runParsers, cred, cbcollectPath, logPath);
      ParserStepsExtend(registry, i, env.runParsers, cred, cbcollectPath, logPath);
      AppendAssociates(started, ParserSteps(registry[..i], env.runParsers, cred, cbcollectPath, logPath),
                       Attempt(log, env.runParsers, cred, cbcollectPath, logPath));
    }
    assert registry[..|registry|] == registry;
    RunSpecConcludes(opts, cred, cbcollectPath, registry, env);

    trace := trace + [MergeEventLogs(cred)];
    err := env.mergeEventLogs(cred);
    if err.Fail? {
      trace := trace + [MergeWarning(err.error)];
      return err, trace;
    }

    trace := trace + [Info(FinishedMessage)];
    if events.None? {
      return Pass, trace;
    }

    trace := trace + [FilterEvents(cred, events.value, including)];
    err := env.filterEvents(cred, events.value, including);
    if err.Fail? {
      trace := trace + [FilterWarning(err.error)];
    }
  }

  /** The credentials of the `node` command: all four identity flags. */
  function NodeCredentials(flags: NodeFlags): Credentials {
    Credentials(flags.username, flags.password, flags.node, flags.nodeName)
  }

  /** The credentials of the `cbcollect` command: the node name only. */
  function CbcollectCredentials(flags: CbcollectFlags): Credentials {
    Credentials("", "", "", flags.nodeName)
  }

  /** `runCluster`: live node logs, no cbcollect path. */
  method RunCluster(flags: NodeFlags, registry: seq<Parser>, env: Env) returns (err: Outcome, trace: seq<Step>)
    ensures RunResult(err, trace) == RunSpec(flags.options, NodeCredentials(flags), "", registry, env)
  {
    var cred := Credentials(flags.username, flags.password, flags.node, flags.nodeName);
    err, trace := Run(flags.options, cred, "", registry, env);
  }

  /** `runCbcollect`: logs from the given cbcollect archive. */
  method RunCbcollect(flags: CbcollectFlags, registry: seq<Parser>, env: Env) returns (err: Outcome, trace: seq<Step>)
    ensures RunResult(err, trace) == RunSpec(flags.options, CbcollectCredentials(flags), flags.path, registry, env)
  {
    var cred := Credentials("", "", "", flags.nodeName);
    var cbcollectPath := flags.path;
    err, trace := Run(flags.options, cred, cbcollectPath, registry, env);
  }
}
