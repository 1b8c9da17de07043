/**
  What a run of `cbeventlog` promises, read off the steps it takes: which
  collaborators are called, in what order, with which arguments, and which
  error comes back.
*/
module CbEventLogTrace {
  import opened Wrappers
  import opened Values
  import opened CbEventLog

  /** What `pick` takes from each step of `t`, concatenated in order. */
  function Collect<T>(t: seq<Step>, pick: Step -> seq<T>): seq<T> {
    if t == [] then [] else Collect(t[..|t| - 1], pick) + pick(t[|t| - 1])
  }

  function ParserOf(s: Step): seq<Parser> {
    if s.RunParsers? then [s.parser] else []
  }

  function WarnedOf(s: Step): seq<string> {
    if s.ParserWarning? then [s.parserName] else []
  }

  function MergeOf(s: Step): seq<Step> {
    if s.MergeEventLogs? then [s] else []
  }

  function FilterOf(s: Step): seq<Step> {
    if s.FilterEvents? then [s] else []
  }

  /** The parser entries `run` attempted, in order. */
  function ParsersRun(t: seq<Step>): seq<Parser> {
    Collect(t, ParserOf)
  }

  /** The parser entries `run` warned about, in order. */
  function ParsersWarned(t: seq<Step>): seq<string> {
    Collect(t, WarnedOf)
  }

  /** The names of the entries of `registry` whose parsers fail, in order. */
  function FailingNames(registry: seq<Parser>, runParsers: (Parser, Credentials, string, string) -> Outcome,
                       cred: Credentials, cbcollectPath: string, logPath: string): seq<string>
  {
    if registry == [] then []
    else
      var p := registry[|registry| - 1];
      FailingNames(registry[..|registry| - 1], runParsers, cred, cbcollectPath, logPath)
        + (if runParsers(p, cred, cbcollectPath, logPath).Fail? then [p.name] else [])
  }

  /** Step `s` hands the collaborator it calls these credentials and this cbcollect path. */
  predicate CallsWith(s: Step, cred: Credentials, cbcollectPath: string) {
    match s
    case RunParsers(_, c, path, _) => c == cred && path == cbcollectPath
    case MergeEventLogs(c) => c == cred
    case FilterEvents(c, _, _) => c == cred
    case _ => true
  }

  lemma {:induction false} CollectAppend<T>(a: seq<Step>, b: seq<Step>, pick: Step -> seq<T>)
    ensures Collect(a + b, pick) == Collect(a, pick) + Collect(b, pick)
  {
    if b == [] {
      assert a + b == a;
    } else {
      assert (a + b)[..|a + b| - 1] == a + b[..|b| - 1];
      CollectAppend(a, b[..|b| - 1], pick);
    }
  }

  lemma {:induction false} CollectNothing<T>(t: seq<Step>, pick: Step -> seq<T>)
    requires forall i :: 0 <= i < |t| ==> pick(t[i]) == []
    ensures Collect(t, pick) == []
  {
    if t != [] {
      CollectNothing(t[..|t| - 1], pick);
    }
  }

  lemma CollectSingle<T>(s: Step, pick: Step -> seq<T>)
    ensures Collect([s], pick) == pick(s)
  {
    assert [s][..0] == [];
  }

  /** One attempt runs its entry once and warns about it exactly when it fails. */
  lemma AttemptCollects(p: Parser, runParsers: (Parser, Credentials, string, string) -> Outcome,
                        cred: Credentials, cbcollectPath: string, logPath: string)
    ensures Collect(Attempt(p, runParsers, cred, cbcollectPath, logPath), ParserOf) == [p]
    ensures Collect(Attempt(p, runParsers, cred, cbcollectPath, logPath), WarnedOf)
         == if runParsers(p, cred, cbcollectPath, logPath).Fail? then [p.name] else []
  {
    var r := RunParsers(p, cred, cbcollectPath, logPath);
    assert [r][..0] == [];
    assert Collect([r], ParserOf) == [p];
    assert Collect([r], WarnedOf) == [];
    match runParsers(p, cred, cbcollectPath, logPath)
    case Pass =>
    case Fail(e) =>
      var w := ParserWarning(p.name, e);
      assert [r, w][..1] == [r];
      assert Collect([r, w], ParserOf) == Collect([r], ParserOf) + ParserOf(w);
      assert Collect([r, w], WarnedOf) == Collect([r], WarnedOf) + WarnedOf(w);
  }

  /** Appending one attempt that runs `p` to steps that ran `init` gives steps that ran `init + [p]`. */
  lemma CollectSnoc<T>(steps: seq<Step>, a: seq<Step>, pick: Step -> seq<T>, init: seq<T>, last: seq<T>)
    requires Collect(steps, pick) == init && Collect(a, pick) == last
    ensures Collect(steps + a, pick) == init + last
  {
    CollectAppend(steps, a, pick);
  }

  /**
    A non-empty sequence is its front followed by its last element. Dafny
    knows this; the lemma only keeps the proof of `ParserStepsAttemptAll`
    steady across solver seeds.
  */
  lemma SnocSplit<T>(s: seq<T>)
    requires s != []
    ensures s[..|s| - 1] + [s[|s| - 1]] == s
  {
  }

  /** The parser loop attempts every entry of the registry once, in registry order. */
  lemma {:induction false} ParserStepsAttemptAll(registry: seq<Parser>, runParsers: (Parser, Credentials, string, string) -> Outcome,
                                                 cred: Credentials, cbcollectPath: string, logPath: string)
    ensures ParsersRun(ParserSteps(registry, runParsers, cred, cbcollectPath, logPath)) == registry
  {
    if registry != [] {
      var init, p := registry[..|registry| - 1], registry[|registry| - 1];
      var a := Attempt(p, runParsers, cred, cbcollectPath, logPath);
      var steps := ParserSteps(init, runParsers, cred, cbcollectPath, logPath);
      ParserStepsAttemptAll(init, runParsers, cred, cbcollectPath, logPath);
      AttemptCollects(p, runParsers, cred, cbcollectPath, logPath);
      CollectSnoc(steps, a, ParserOf, init, [p]);
      SnocSplit(registry);
    }
  }

  /** The parser loop warns about exactly the failing entries, in registry order. */
  lemma {:induction false} ParserStepsWarnFailures(registry: seq<Parser>, runParsers: (Parser, Credentials, string, string) -> Outcome,
                                                   cred: Credentials, cbcollectPath: string, logPath: string)
    ensures ParsersWarned(ParserSteps(registry, runParsers, cred, cbcollectPath, logPath))
         == FailingNames(registry, runParsers, cred, cbcollectPath, logPath)
  {
    if registry != [] {
      var init, p := registry[..|registry| - 1], registry[|registry| - 1];
      var a := Attempt(p, runParsers, cred, cbcollectPath, logPath);
      ParserStepsWarnFailures(init, runParsers, cred, cbcollectPath, logPath);
      CollectAppend(ParserSteps(init, runParsers, cred, cbcollectPath, logPath), a, WarnedOf);
      AttemptCollects(p, runParsers, cred, cbcollectPath, logPath);
    }
  }

  /** The parser loop only runs parsers, with the run's arguments, and logs their warnings. */
  lemma {:induction false} ParserStepsShape(registry: seq<Parser>, runParsers: (Parser, Credentials, string, string) -> Outcome,
                                            cred: Credentials, cbcollectPath: string, logPath: string)
    ensures forall s :: s in ParserSteps(registry, runParsers, cred, cbcollectPath, logPath) ==>
              s.ParserWarning? || (s.RunParsers? && s.cred == cred && s.cbcollectPath == cbcollectPath && s.logPath == logPath)
  {
    if registry != [] {
      ParserStepsShape(registry[..|registry| - 1], runParsers, cred, cbcollectPath, logPath);
    }
  }

  /** `Conclude` only appends to the steps already taken, and its error does not depend on them. */
  lemma ConcludeAppends(done: seq<Step>, cred: Credentials, events: Option<seq<EventType>>, including: bool, env: Env)
    ensures Conclude(done, cred, events, including, env)
         == RunResult(Conclude([], cred, events, including, env).err, done + Conclude([], cred, events, including, env).trace)
  {
    assert [] + [MergeEventLogs(cred)] == [MergeEventLogs(cred)];
    match env.mergeEventLogs(cred)
    case Fail(e) =>
    case Pass =>
      match events
      case None =>
      case Some(ev) =>
        match env.filterEvents(cred, ev, including)
        case Pass =>
        case Fail(e) =>
  }

  /** After the parser loop, `Conclude` calls merge first, then logs and filters with the run's arguments. */
  lemma ConcludeShape(cred: Credentials, events: Option<seq<EventType>>, including: bool, env: Env)
    ensures var t := Conclude([], cred, events, including, env).trace;
      && |t| >= 1 && t[0] == MergeEventLogs(cred)
      && forall i :: 1 <= i < |t| ==>
           t[i].MergeWarning? || t[i].Info? || t[i].FilterWarning?
           || (t[i].FilterEvents? && t[i].cred == cred && t[i].including == including)
    ensures forall s :: s in Conclude([], cred, events, including, env).trace ==>
      s == MergeEventLogs(cred) || s.MergeWarning? || s.Info? || s.FilterWarning?
      || (s.FilterEvents? && s.cred == cred && s.including == including)
  {
  }

  /** Every run that reaches the parsers is the prelude, the parser loop and then `Conclude`. */
  lemma RunSpecParts(opts: Options, cred: Credentials, cbcollectPath: string, registry: seq<Parser>, env: Env)
    requires ReachesParsers(opts, env)
    ensures var tail := Conclude([], cred, env.getEventList(ListFlag(opts)).events, opts.includeEvents != "", env);
      RunSpec(opts, cred, cbcollectPath, registry, env)
      == RunResult(tail.err, Prelude(opts) + ParserSteps(registry, env.runParsers, cred, cbcollectPath, LogPath(opts, env)) + tail.trace)
  {
    RunSpecConcludes(opts, cred, cbcollectPath, registry, env);
    ConcludeAppends(Prelude(opts) + ParserSteps(registry, env.runParsers, cred, cbcollectPath, LogPath(opts, env)),
                    cred, env.getEventList(ListFlag(opts)).events, opts.includeEvents != "", env);
  }

  /** When no `Merge` precedes the split and no parser runs after it, no parser runs after a merge. */
  lemma NoParserAfterMerge(a: seq<Step>, b: seq<Step>)
    requires forall i :: 0 <= i < |a| ==> !a[i].MergeEventLogs?
    requires forall i :: 0 <= i < |b| ==> !b[i].RunParsers?
    ensures forall i, j :: 0 <= i < j < |a + b| && (a + b)[i].MergeEventLogs? ==> !(a + b)[j].RunParsers?
  {
  }

  /** `include` is set exactly when include-events is given, and then that flag is the list parsed; otherwise exclude-events is. */
  lemma ListSelection(opts: Options, cred: Credentials, cbcollectPath: string, registry: seq<Parser>, env: Env)
    requires !BothLists(opts) && env.loggerInit.Pass?
    ensures var t := RunSpec(opts, cred, cbcollectPath, registry, env).trace;
      && |t| >= 2
      && t[1] == GetEventList(if opts.includeEvents != "" then opts.includeEvents else opts.excludeEvents)
      && forall s :: s in t && s.FilterEvents? ==> s.including == (opts.includeEvents != "")
  {
    if ReachesParsers(opts, env) {
      var events := env.getEventList(ListFlag(opts)).events;
      RunSpecParts(opts, cred, cbcollectPath, registry, env);
      ParserStepsShape(registry, env.runParsers, cred, cbcollectPath, LogPath(opts, env));
      ConcludeShape(cred, events, opts.includeEvents != "", env);
    }
  }

  /** `t` neither runs a parser nor warns about one. */
  predicate NoParserSteps(t: seq<Step>) {
    forall i :: 0 <= i < |t| ==> !t[i].RunParsers? && !t[i].ParserWarning?
  }

  /** Around the parser loop, steps that are not parser steps do not change what was attempted or warned about. */
  lemma ParserLoopBetween(pre: seq<Step>, registry: seq<Parser>, runParsers: (Parser, Credentials, string, string) -> Outcome,
                          cred: Credentials, cbcollectPath: string, logPath: string, post: seq<Step>)
    requires NoParserSteps(pre) && NoParserSteps(post)
    ensures ParsersRun(pre + ParserSteps(registry, runParsers, cred, cbcollectPath, logPath) + post) == registry
    ensures ParsersWarned(pre + ParserSteps(registry, runParsers, cred, cbcollectPath, logPath) + post)
         == FailingNames(registry, runParsers, cred, cbcollectPath, logPath)
  {
    var steps := ParserSteps(registry, runParsers, cred, cbcollectPath, logPath);
    CollectAppend(pre + steps, post, ParserOf);
    CollectAppend(pre, steps, ParserOf);
    CollectNothing(pre, ParserOf);
    CollectNothing(post, ParserOf);
    ParserStepsAttemptAll(registry, runParsers, cred, cbcollectPath, logPath);
    CollectAppend(pre + steps, post, WarnedOf);
    CollectAppend(pre, steps, WarnedOf);
    CollectNothing(pre, WarnedOf);
    CollectNothing(post, WarnedOf);
    ParserStepsWarnFailures(registry, runParsers, cred, cbcollectPath, logPath);
  }

  /**
    Every registry entry is attempted exactly once, in registry order, and a
    warning is logged for exactly the entries that fail.
  */
  lemma ParsersAttemptedInOrder(opts: Options, cred: Credentials, cbcollectPath: string, registry: seq<Parser>, env: Env)
    requires ReachesParsers(opts, env)
    ensures ParsersRun(RunSpec(opts, cred, cbcollectPath, registry, env).trace) == registry
    ensures ParsersWarned(RunSpec(opts, cred, cbcollectPath, registry, env).trace)
         == FailingNames(registry, env.runParsers, cred, cbcollectPath, if opts.logPath == "" then env.getwd.path else opts.logPath)
  {
    var events := env.getEventList(ListFlag(opts)).events;
    var tail := Conclude([], cred, events, opts.includeEvents != "", env).trace;
    RunSpecParts(opts, cred, cbcollectPath, registry, env);
    ConcludeShape(cred, events, opts.includeEvents != "", env);
    assert NoParserSteps(Prelude(opts));
    assert NoParserSteps(tail);
    ParserLoopBetween(Prelude(opts), registry, env.runParsers, cred, cbcollectPath, LogPath(opts, env), tail);
  }

  /** What the parsers return changes neither the error of `run` nor which parsers it attempts. */
  lemma ParserOutcomesIgnored(opts: Options, cred: Credentials, cbcollectPath: string, registry: seq<Parser>, env: Env,
                              other: (Parser, Credentials, string, string) -> Outcome)
    ensures RunSpec(opts, cred, cbcollectPath, registry, env.(runParsers := other)).err
         == RunSpec(opts, cred, cbcollectPath, registry, env).err
    ensures ParsersRun(RunSpec(opts, cred, cbcollectPath, registry, env.(runParsers := other)).trace)
         == ParsersRun(RunSpec(opts, cred, cbcollectPath, registry, env).trace)
  {
    var env' := env.(runParsers := other);
    if ReachesParsers(opts, env) {
      assert ReachesParsers(opts, env');
      RunSpecParts(opts, cred, cbcollectPath, registry, env);
      RunSpecParts(opts, cred, cbcollectPath, registry, env');
      ParsersAttemptedInOrder(opts, cred, cbcollectPath, registry, env);
      ParsersAttemptedInOrder(opts, cred, cbcollectPath, registry, env');
    }
  }

  /** `t` never calls the filter. */
  predicate NoFilterSteps(t: seq<Step>) {
    forall i :: 0 <= i < |t| ==> !t[i].FilterEvents?
  }

  /** `t` never calls merge. */
  predicate NoMergeSteps(t: seq<Step>) {
    forall i :: 0 <= i < |t| ==> !t[i].MergeEventLogs?
  }

  /** A trace that calls merge only at the start of `tail`, and runs no parser in `tail`, merges once and after all parsers. */
  lemma MergeStartsTail(before: seq<Step>, tail: seq<Step>, cred: Credentials)
    requires NoMergeSteps(before)
    requires |tail| >= 1 && tail[0] == MergeEventLogs(cred)
    requires forall i :: 1 <= i < |tail| ==> !tail[i].MergeEventLogs? && !tail[i].RunParsers?
    ensures Collect(before + tail, MergeOf) == [MergeEventLogs(cred)]
    ensures forall i, j :: 0 <= i < j < |before + tail| && (before + tail)[i].MergeEventLogs? ==> !(before + tail)[j].RunParsers?
  {
    MergeCollectedOnce(before, tail, cred);
    NoParserAfterMerge(before, tail);
  }

  /** The merge calls of such a trace are just the one that starts `tail`. */
  lemma MergeCollectedOnce(before: seq<Step>, tail: seq<Step>, cred: Credentials)
    requires NoMergeSteps(before)
    requires |tail| >= 1 && tail[0] == MergeEventLogs(cred)
    requires forall i :: 1 <= i < |tail| ==> !tail[i].MergeEventLogs?
    ensures Collect(before + tail, MergeOf) == [MergeEventLogs(cred)]
  {
    var rest := tail[1..];
    assert tail == [tail[0]] + rest;
    forall i | 0 <= i < |rest|
      ensures MergeOf(rest[i]) == []
    {
      assert rest[i] == tail[i + 1];
    }
    CollectNothing(before, MergeOf);
    CollectNothing(rest, MergeOf);
    CollectSingle(tail[0], MergeOf);
    CollectAppend([tail[0]], rest, MergeOf);
    CollectAppend(before, tail, MergeOf);
  }

  /** The prelude and the parser loop neither merge nor filter. */
  lemma BeforeMergeQuiet(opts: Options, registry: seq<Parser>, runParsers: (Parser, Credentials, string, string) -> Outcome,
                         cred: Credentials, cbcollectPath: string, logPath: string)
    ensures NoMergeSteps(Prelude(opts) + ParserSteps(registry, runParsers, cred, cbcollectPath, logPath))
    ensures NoFilterSteps(Prelude(opts) + ParserSteps(registry, runParsers, cred, cbcollectPath, logPath))
  {
    var steps := ParserSteps(registry, runParsers, cred, cbcollectPath, logPath);
    ParserStepsShape(registry, runParsers, cred, cbcollectPath, logPath);
    assert forall i :: 0 <= i < |steps| ==> steps[i] in steps;
  }

  /** A run that reaches the parsers splits into steps without merge or filter, then `Conclude`'s steps. */
  lemma SplitAtMerge(opts: Options, cred: Credentials, cbcollectPath: string, registry: seq<Parser>, env: Env)
    returns (before: seq<Step>, tail: seq<Step>)
    requires ReachesParsers(opts, env)
    ensures RunSpec(opts, cred, cbcollectPath, registry, env).trace == before + tail
    ensures NoMergeSteps(before) && NoFilterSteps(before)
    ensures |tail| >= 1 && tail[0] == MergeEventLogs(cred)
    ensures forall i :: 1 <= i < |tail| ==> !tail[i].MergeEventLogs? && !tail[i].RunParsers?
  {
    var events := env.getEventList(ListFlag(opts)).events;
    before := Prelude(opts) + ParserSteps(registry, env.runParsers, cred, cbcollectPath, LogPath(opts, env));
    tail := Conclude([], cred, events, opts.includeEvents != "", env).trace;
    RunSpecParts(opts, cred, cbcollectPath, registry, env);
    BeforeMergeQuiet(opts, registry, env.runParsers, cred, cbcollectPath, LogPath(opts, env));
    ConcludeShape(cred, events, opts.includeEvents != "", env);
  }

  /** Merge is called exactly once, with the run's credentials, and no parser runs after it. */
  lemma MergeOnceAfterParsers(opts: Options, cred: Credentials, cbcollectPath: string, registry: seq<Parser>, env: Env)
    requires ReachesParsers(opts, env)
    ensures Collect(RunSpec(opts, cred, cbcollectPath, registry, env).trace, MergeOf) == [MergeEventLogs(cred)]
    ensures var t := RunSpec(opts, cred, cbcollectPath, registry, env).trace;
      forall i, j :: 0 <= i < j < |t| && t[i].MergeEventLogs? ==> !t[j].RunParsers?
  {
    var before, tail := SplitAtMerge(opts, cred, cbcollectPath, registry, env);
    MergeStartsTail(before, tail, cred);
  }

  /**
    A trace that calls merge only at the start of `tail`, filters only after
    that start and runs no parser in `tail`: parsers come before the merge,
    the filter after it.
  */
  lemma StagesAroundMerge(before: seq<Step>, tail: seq<Step>, cred: Credentials)
    requires NoMergeSteps(before) && NoFilterSteps(before)
    requires |tail| >= 1 && tail[0] == MergeEventLogs(cred)
    requires forall i :: 1 <= i < |tail| ==> !tail[i].MergeEventLogs? && !tail[i].RunParsers?
    ensures var t := before + tail;
      forall i, j :: 0 <= i < |t| && 0 <= j < |t| && t[i].RunParsers? && t[j].MergeEventLogs? ==> i < j
    ensures var t := before + tail;
      forall i, j :: 0 <= i < |t| && 0 <= j < |t| && t[i].MergeEventLogs? && t[j].FilterEvents? ==> i < j
  {
    var t := before + tail;
    var m := |before|;
    assert forall k :: 0 <= k < |t| ==> t[k] == if k < m then before[k] else tail[k - m];
  }

  /** The three stages come in order: every parser runs before the merge, and the filter runs after it. */
  lemma StageOrder(opts: Options, cred: Credentials, cbcollectPath: string, registry: seq<Parser>, env: Env)
    requires ReachesParsers(opts, env)
    ensures var t := RunSpec(opts, cred, cbcollectPath, registry, env).trace;
      forall i, j :: 0 <= i < |t| && 0 <= j < |t| && t[i].RunParsers? && t[j].MergeEventLogs? ==> i < j
    ensures var t := RunSpec(opts, cred, cbcollectPath, registry, env).trace;
      forall i, j :: 0 <= i < |t| && 0 <= j < |t| && t[i].MergeEventLogs? && t[j].FilterEvents? ==> i < j
  {
    var before, tail := SplitAtMerge(opts, cred, cbcollectPath, registry, env);
    StagesAroundMerge(before, tail, cred);
  }

  /** A failed merge is returned as the error, and the filter is never called. */
  lemma MergeFailureReturned(opts: Options, cred: Credentials, cbcollectPath: string, registry: seq<Parser>, env: Env)
    requires ReachesParsers(opts, env) && env.mergeEventLogs(cred).Fail?
    ensures RunSpec(opts, cred, cbcollectPath, registry, env).err == env.mergeEventLogs(cred)
    ensures Collect(RunSpec(opts, cred, cbcollectPath, registry, env).trace, FilterOf) == []
  {
    var events := env.getEventList(ListFlag(opts)).events;
    RunSpecParts(opts, cred, cbcollectPath, registry, env);
    ParserStepsShape(registry, env.runParsers, cred, cbcollectPath, LogPath(opts, env));
    var t := RunSpec(opts, cred, cbcollectPath, registry, env).trace;
    assert forall i :: 0 <= i < |t| ==> !t[i].FilterEvents?;
    CollectNothing(t, FilterOf);
  }

  /** After a successful merge with no event list, `run` succeeds without filtering. */
  lemma NoEventListNoFilter(opts: Options, cred: Credentials, cbcollectPath: string, registry: seq<Parser>, env: Env)
    requires ReachesParsers(opts, env) && env.mergeEventLogs(cred).Pass?
    requires env.getEventList(ListFlag(opts)).events.None?
    ensures RunSpec(opts, cred, cbcollectPath, registry, env).err == Pass
    ensures Collect(RunSpec(opts, cred, cbcollectPath, registry, env).trace, FilterOf) == []
  {
    RunSpecParts(opts, cred, cbcollectPath, registry, env);
    ParserStepsShape(registry, env.runParsers, cred, cbcollectPath, LogPath(opts, env));
    var t := RunSpec(opts, cred, cbcollectPath, registry, env).trace;
    assert forall i :: 0 <= i < |t| ==> !t[i].FilterEvents?;
    CollectNothing(t, FilterOf);
  }

  /** A trace whose only filter call is `f`, made after merging and logging success, collects just `f`. */
  lemma FilterOnceInTail(before: seq<Step>, cred: Credentials, f: Step, after: seq<Step>)
    requires NoFilterSteps(before) && NoFilterSteps(after) && f.FilterEvents?
    ensures Collect(before + ([MergeEventLogs(cred), Info(FinishedMessage), f] + after), FilterOf) == [f]
  {
    var m := [MergeEventLogs(cred), Info(FinishedMessage), f];
    CollectAppend(before, m + after, FilterOf);
    CollectNothing(before, FilterOf);
    CollectAppend(m, after, FilterOf);
    CollectNothing(after, FilterOf);
    var m1 := [MergeEventLogs(cred)];
    var m2 := [MergeEventLogs(cred), Info(FinishedMessage)];
    assert m1[..0] == [] && m2[..1] == m1 && m[..2] == m2;
    assert Collect(m1, FilterOf) == [];
    assert Collect(m2, FilterOf) == [];
    assert Collect(m, FilterOf) == [f];
  }

  /**
    After a successful merge with an event list, the filter is called once,
    with that list and the include flag, and its error is what `run` returns.
  */
  lemma FilterOutcomeReturned(opts: Options, cred: Credentials, cbcollectPath: string, registry: seq<Parser>, env: Env)
    requires ReachesParsers(opts, env) && env.mergeEventLogs(cred).Pass?
    requires env.getEventList(ListFlag(opts)).events.Some?
    ensures var ev := env.getEventList(ListFlag(opts)).events.value;
      RunSpec(opts, cred, cbcollectPath, registry, env).err == env.filterEvents(cred, ev, opts.includeEvents != "")
    ensures var ev := env.getEventList(ListFlag(opts)).events.value;
      Collect(RunSpec(opts, cred, cbcollectPath, registry, env).trace, FilterOf) == [FilterEvents(cred, ev, opts.includeEvents != "")]
  {
    var ev := env.getEventList(ListFlag(opts)).events.value;
    var including := opts.includeEvents != "";
    var f := FilterEvents(cred, ev, including);
    var steps := ParserSteps(registry, env.runParsers, cred, cbcollectPath, LogPath(opts, env));
    var after := match env.filterEvents(cred, ev, including)
      case Pass => []
      case Fail(e) => [FilterWarning(e)];
    RunSpecParts(opts, cred, cbcollectPath, registry, env);
    BeforeMergeQuiet(opts, registry, env.runParsers, cred, cbcollectPath, LogPath(opts, env));
    assert Conclude([], cred, Some(ev), including, env).trace == [MergeEventLogs(cred), Info(FinishedMessage), f] + after;
    FilterOnceInTail(Prelude(opts) + steps, cred, f, after);
  }

  /** Every collaborator `run` calls gets the credentials and cbcollect path the run was given. */
  lemma StepArguments(opts: Options, cred: Credentials, cbcollectPath: string, registry: seq<Parser>, env: Env)
    ensures forall s :: s in RunSpec(opts, cred, cbcollectPath, registry, env).trace ==> CallsWith(s, cred, cbcollectPath)
  {
    if ReachesParsers(opts, env) {
      RunSpecParts(opts, cred, cbcollectPath, registry, env);
      ParserStepsShape(registry, env.runParsers, cred, cbcollectPath, LogPath(opts, env));
      ConcludeShape(cred, env.getEventList(ListFlag(opts)).events, opts.includeEvents != "", env);
    }
  }

  /** `node` mode hands every collaborator all four identity flags and no cbcollect path. */
  lemma NodeModeArguments(flags: NodeFlags, registry: seq<Parser>, env: Env)
    ensures forall s :: s in RunSpec(flags.options, NodeCredentials(flags), "", registry, env).trace ==>
              CallsWith(s, Credentials(flags.username, flags.password, flags.node, flags.nodeName), "")
  {
    StepArguments(flags.options, NodeCredentials(flags), "", registry, env);
  }

  /** `cbcollect` mode hands every collaborator only the node name, and the archive path. */
  lemma CbcollectModeArguments(flags: CbcollectFlags, registry: seq<Parser>, env: Env)
    ensures forall s :: s in RunSpec(flags.options, CbcollectCredentials(flags), flags.path, registry, env).trace ==>
              CallsWith(s, Credentials("", "", "", flags.nodeName), flags.path)
  {
    StepArguments(flags.options, CbcollectCredentials(flags), flags.path, registry, env);
  }

  /** The parser loop asks for no working directory and runs every parser in `logPath`. */
  lemma ParserLoopLogPath(pre: seq<Step>, registry: seq<Parser>, runParsers: (Parser, Credentials, string, string) -> Outcome,
                          cred: Credentials, cbcollectPath: string, logPath: string, post: seq<Step>)
    requires forall i :: 0 <= i < |pre| ==> !pre[i].RunParsers?
    requires forall i :: 0 <= i < |post| ==> !post[i].RunParsers? && !post[i].Getwd?
    ensures Getwd in pre + ParserSteps(registry, runParsers, cred, cbcollectPath, logPath) + post <==> Getwd in pre
    ensures forall s :: s in pre + ParserSteps(registry, runParsers, cred, cbcollectPath, logPath) + post && s.RunParsers? ==>
              s.logPath == logPath
  {
    ParserStepsShape(registry, runParsers, cred, cbcollectPath, logPath);
  }

  /** With no log path given the working directory is asked for and used; a given one is used unchanged. */
  lemma LogPathDefault(opts: Options, cred: Credentials, cbcollectPath: string, registry: seq<Parser>, env: Env)
    requires ReachesParsers(opts, env)
    ensures Getwd in RunSpec(opts, cred, cbcollectPath, registry, env).trace <==> opts.logPath == ""
    ensures forall s :: s in RunSpec(opts, cred, cbcollectPath, registry, env).trace && s.RunParsers? ==>
              s.logPath == if opts.logPath == "" then env.getwd.path else opts.logPath
  {
    var events := env.getEventList(ListFlag(opts)).events;
    RunSpecParts(opts, cred, cbcollectPath, registry, env);
    ConcludeShape(cred, events, opts.includeEvents != "", env);
    assert Getwd in Prelude(opts) <==> opts.logPath == "";
    ParserLoopLogPath(Prelude(opts), registry, env.runParsers, cred, cbcollectPath, LogPath(opts, env),
                      Conclude([], cred, events, opts.includeEvents != "", env).trace);
  }
}
