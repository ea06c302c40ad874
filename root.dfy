/** The root command's pre-run hook, rootPersistentPreRunE
    (internal/app/wwctl/root.go, lines 68-92), run before every wwctl subcommand.

    The process-wide state it touches is the wwlog level, the `Initialized`
    flag of the configuration singleton and the sequence of calls it makes into
    those two packages. `Step` is the hook as a function of that state; the
    class `Process` runs it step by step as the source does; `Run` repeats it
    over several invocations. */
module Root {
  import opened WwLog
  import opened Config

  /** The persistent flags of the root command. */
  datatype Flags = Flags(
    verbose: bool,          // --verbose / -v
    debug: bool,            // --debug / -d
    logLevel: int,          // --loglevel (hidden)
    warewulfConf: string,   // --warewulfconf
    emptyConf: bool         // --emptyconf (hidden)
  )

  /** The flag values when none is given on the command line. */
  function DefaultFlags(): (f: Flags)
    // no level override and no shorthand: the hook logs at INFO
    ensures SelectLevel(f.debug, f.verbose, f.logLevel) == INFO
    // no path flag and empty configuration not allowed: an uninitialised
    // configuration is loaded from WAREWULFCONF or the default path
    ensures !f.emptyConf && forall env :: ConfigPath(f.warewulfConf, env) == ConfigPath("", env)
  {
    Flags(false, false, INFO, "", false)
  }

  /** A call the hook makes into the logging or configuration package,
      recorded with the outcome the package returned. */
  datatype Call =
    | SetLogLevel(level: int)
    | ReadConf(path: string, result: Outcome)
    | SetDynamicDefaults(result: Outcome)

  predicate IsConfigCall(c: Call) { c.ReadConf? || c.SetDynamicDefaults? }
  predicate IsLoad(c: Call) { c.ReadConf? }
  predicate IsSuccessfulLoad(c: Call) { c.ReadConf? && c.result.Ok? }

  /** Number of calls in `calls` that satisfy `p`. */
  function Count(calls: seq<Call>, p: Call -> bool): nat {
    if calls == [] then 0
    else Count(calls[..|calls| - 1], p) + (if p(calls[|calls| - 1]) then 1 else 0)
  }

  lemma {:induction false} CountAppend(a: seq<Call>, b: seq<Call>, p: Call -> bool)
    ensures Count(a + b, p) == Count(a, p) + Count(b, p)
    decreases |b|
  {
    if b == [] {
      assert a + b == a;
    } else {
      assert (a + b)[..|a + b| - 1] == a + b[..|b| - 1];
      CountAppend(a, b[..|b| - 1], p);
    }
  }

  /** One invocation's inputs: the parsed flags, the environment, and the
      outcomes the configuration package gives (per path for ReadConf). */
  datatype Invocation = Invocation(
    flags: Flags,
    env: map<string, string>,
    readConf: string -> Outcome,
    dynamicDefaults: Outcome
  )

  /** The process-wide state the hook reads and writes. */
  datatype State = State(level: int, initialized: bool, calls: seq<Call>)

  datatype StepResult = StepResult(state: State, err: Outcome)

  /** The SetLogLevel calls of lines 69-78, in order. */
  function LevelWrites(f: Flags): (writes: seq<Call>)
    ensures |writes| == if f.logLevel != INFO then 2 else 1
    ensures forall k :: 0 <= k < |writes| ==> writes[k].SetLogLevel?
    ensures writes[0] == SetLogLevel(ShorthandLevel(f.debug, f.verbose))
    // the last write is the effective level
    ensures writes[|writes| - 1].level == SelectLevel(f.debug, f.verbose, f.logLevel)
  {
    [SetLogLevel(ShorthandLevel(f.debug, f.verbose))]
      + (if f.logLevel != INFO then [SetLogLevel(f.logLevel)] else [])
  }

  /** The one configuration call of lines 79-90. */
  function ConfigCall(initialized: bool, inv: Invocation): (c: Call)
    ensures IsConfigCall(c)
    ensures c.ReadConf? <==> NeedsLoad(inv.flags.emptyConf, initialized)
    // a load reads the resolved path and yields what the package returned for it
    ensures c.ReadConf? ==> c.path == ConfigPath(inv.flags.warewulfConf, inv.env) && c.result == inv.readConf(c.path)
    ensures c.SetDynamicDefaults? ==> c.result == inv.dynamicDefaults
  {
    if NeedsLoad(inv.flags.emptyConf, initialized) then
      var path := ConfigPath(inv.flags.warewulfConf, inv.env);
      ReadConf(path, inv.readConf(path))
    else
      SetDynamicDefaults(inv.dynamicDefaults)
  }

  /** One run of the hook. */
  function Step(s: State, inv: Invocation): (r: StepResult)
    // the history is kept; the level writes and then one configuration call are added
    ensures |r.state.calls| > |s.calls| && r.state.calls[..|s.calls|] == s.calls
    ensures IsConfigCall(r.state.calls[|r.state.calls| - 1])
    ensures forall k :: |s.calls| <= k < |r.state.calls| - 1 ==> r.state.calls[k].SetLogLevel?
    ensures |r.state.calls| == |s.calls| + (if inv.flags.logLevel != INFO then 3 else 2)
    ensures r.state.calls[|s.calls|] == SetLogLevel(ShorthandLevel(inv.flags.debug, inv.flags.verbose))
    ensures inv.flags.logLevel != INFO ==> r.state.calls[|s.calls| + 1] == SetLogLevel(inv.flags.logLevel)
    ensures r.state.level == SelectLevel(inv.flags.debug, inv.flags.verbose, inv.flags.logLevel)
    // the hook's error is the configuration call's error, unchanged: what
    // ReadConf returned for the resolved path, or what SetDynamicDefaults returned
    ensures r.err == r.state.calls[|r.state.calls| - 1].result
    ensures r.state.calls[|r.state.calls| - 1].ReadConf?
        ==> r.err == inv.readConf(ConfigPath(inv.flags.warewulfConf, inv.env))
    ensures r.state.calls[|r.state.calls| - 1].SetDynamicDefaults? ==> r.err == inv.dynamicDefaults
    // a load is made exactly when needed, from the resolved path
    ensures r.state.calls[|r.state.calls| - 1].ReadConf? <==> NeedsLoad(inv.flags.emptyConf, s.initialized)
    ensures r.state.calls[|r.state.calls| - 1].ReadConf?
        ==> r.state.calls[|r.state.calls| - 1].path == ConfigPath(inv.flags.warewulfConf, inv.env)
    // initialised afterwards iff it was before or the load succeeded
    ensures r.state.initialized <==> s.initialized || (NeedsLoad(inv.flags.emptyConf, s.initialized) && r.err.Ok?)
  {
    var c := ConfigCall(s.initialized, inv);
    var calls := s.calls + LevelWrites(inv.flags) + [c];
    assert calls[..|s.calls|] == s.calls;
    StepResult(
      State(SelectLevel(inv.flags.debug, inv.flags.verbose, inv.flags.logLevel),
            s.initialized || (c.ReadConf? && c.result.Ok?),
            calls),
      c.result)
  }

  /** A run of calls that are all SetLogLevel holds none that `p` selects. */
  lemma {:induction false} NoneCounted(calls: seq<Call>, p: Call -> bool)
    requires forall k :: 0 <= k < |calls| ==> calls[k].SetLogLevel?
    requires forall c: Call :: p(c) ==> !c.SetLogLevel?
    ensures Count(calls, p) == 0
  {
    if calls != [] {
      NoneCounted(calls[..|calls| - 1], p);
    }
  }

  /** Count over one hook run: what `p` selects among the calls it adds is
      exactly its last call, the configuration call. */
  lemma StepCount(s: State, inv: Invocation, p: Call -> bool)
    requires forall c: Call :: p(c) ==> !c.SetLogLevel?
    ensures var calls := Step(s, inv).state.calls;
            Count(calls, p) == Count(s.calls, p) + (if p(calls[|calls| - 1]) then 1 else 0)
  {
    var calls := Step(s, inv).state.calls;
    var writes := calls[|s.calls|..|calls| - 1];
    assert calls == s.calls + writes + [calls[|calls| - 1]];
    CountAppend(s.calls + writes, [calls[|calls| - 1]], p);
    CountAppend(s.calls, writes, p);
    NoneCounted(writes, p);
    assert [calls[|calls| - 1]][..0] == [];
  }

  /** Each run of the hook makes exactly one configuration call, and a load
      exactly when one is needed. */
  lemma StepMakesOneConfigCall(s: State, inv: Invocation)
    ensures Count(Step(s, inv).state.calls, IsConfigCall) == Count(s.calls, IsConfigCall) + 1
    ensures Count(Step(s, inv).state.calls, IsLoad)
         == Count(s.calls, IsLoad) + (if NeedsLoad(inv.flags.emptyConf, s.initialized) then 1 else 0)
  {
    StepCount(s, inv, IsConfigCall);
    StepCount(s, inv, IsLoad);
  }

  /** Several invocations of the hook in sequence, with the error of each. */
  datatype RunResult = RunResult(state: State, errs: seq<Outcome>)

  function Run(s: State, invs: seq<Invocation>): (r: RunResult)
    ensures |r.errs| == |invs|
    ensures |r.state.calls| >= |s.calls| && r.state.calls[..|s.calls|] == s.calls
    // one configuration call per invocation
    ensures Count(r.state.calls, IsConfigCall) == Count(s.calls, IsConfigCall) + |invs|
    decreases |invs|
  {
    if invs == [] then RunResult(s, [])
    else
      var first := Step(s, invs[0]);
      var rest := Run(first.state, invs[1..]);
      StepMakesOneConfigCall(s, invs[0]);
      assert rest.state.calls[..|s.calls|] == first.state.calls[..|first.state.calls|][..|s.calls|];
      RunResult(rest.state, [first.err] + rest.errs)
  }

  /** The singleton's `Initialized` flag accounts for the successful loads:
      it is set exactly when one successful load has happened. */
  ghost predicate LoadAccounting(s: State) {
    Count(s.calls, IsSuccessfulLoad) == if s.initialized then 1 else 0
  }

  lemma StepKeepsLoadAccounting(s: State, inv: Invocation)
    requires LoadAccounting(s)
    ensures LoadAccounting(Step(s, inv).state)
  {
    StepCount(s, inv, IsSuccessfulLoad);
  }

  /** Starting from a state that accounts for its loads (an uninitialised
      configuration with no calls is one), any sequence of invocations makes
      at most one successful load. */
  lemma {:induction false} AtMostOneSuccessfulLoad(s: State, invs: seq<Invocation>)
    requires LoadAccounting(s)
    ensures LoadAccounting(Run(s, invs).state)
    ensures Count(Run(s, invs).state.calls, IsSuccessfulLoad) <= 1
    decreases |invs|
  {
    if invs != [] {
      StepKeepsLoadAccounting(s, invs[0]);
      AtMostOneSuccessfulLoad(Step(s, invs[0]).state, invs[1..]);
    }
  }

  /** Once the configuration is initialised it stays so, and no invocation
      loads it again. */
  lemma {:induction false} NoReloadOnceInitialized(s: State, invs: seq<Invocation>)
    requires s.initialized
    ensures Run(s, invs).state.initialized
    ensures Count(Run(s, invs).state.calls, IsLoad) == Count(s.calls, IsLoad)
    decreases |invs|
  {
    if invs != [] {
      StepMakesOneConfigCall(s, invs[0]);
      NoReloadOnceInitialized(Step(s, invs[0]).state, invs[1..]);
    }
  }

  /** With `--emptyconf` on every invocation, repeating the hook never loads,
      leaves `Initialized` as it was, and each run returns exactly what
      SetDynamicDefaults returned. */
  lemma {:induction false} EmptyConfRunsKeepConfig(s: State, invs: seq<Invocation>)
    requires forall i :: 0 <= i < |invs| ==> invs[i].flags.emptyConf
    ensures Run(s, invs).state.initialized == s.initialized
    ensures Count(Run(s, invs).state.calls, IsLoad) == Count(s.calls, IsLoad)
    ensures forall i :: 0 <= i < |invs| ==> Run(s, invs).errs[i] == invs[i].dynamicDefaults
    decreases |invs|
  {
    if invs != [] {
      StepMakesOneConfigCall(s, invs[0]);
      EmptyConfRunsKeepConfig(Step(s, invs[0]).state, invs[1..]);
    }
  }

  /** With no flags given, an uninitialised configuration and WAREWULFCONF
      unset or empty, the hook logs at INFO and loads the default path, failing
      exactly when that load fails. */
  lemma DefaultFlagsLoadDefaultFile(s: State, inv: Invocation)
    requires inv.flags == DefaultFlags() && !s.initialized && Getenv(inv.env, EnvVar) == ""
    ensures Step(s, inv).state.level == INFO
    ensures Step(s, inv).state.calls == s.calls + [SetLogLevel(INFO), ReadConf(ConfigFile, inv.readConf(ConfigFile))]
    ensures Step(s, inv).err == inv.readConf(ConfigFile)
  {
  }

  /** The process running wwctl: the wwlog level, the configuration
      singleton's `Initialized` flag, and the calls made into both. */
  class Process {
    var level: int
    var initialized: bool
    var calls: seq<Call>

    function Current(): State
      reads this
    {
      State(level, initialized, calls)
    }

    /** A fresh process: the configuration singleton starts uninitialised. */
    constructor (initialLevel: int)
      ensures level == initialLevel && !initialized && calls == []
      ensures LoadAccounting(Current())
    {
      level, initialized, calls := initialLevel, false, [];
    }

    /** wwlog.SetLogLevel */
    method SetLogLevel(l: int)
      modifies this
      ensures level == l && initialized == old(initialized)
      ensures calls == old(calls) + [Call.SetLogLevel(l)]
    {
      level := l;
      calls := calls + [Call.SetLogLevel(l)];
    }

    /** conf.ReadConf, whose outcome for this path is `outcome`; a successful
        load initialises the configuration. */
    method ReadConf(path: string, outcome: Outcome) returns (err: Outcome)
      modifies this
      ensures err == outcome && level == old(level)
      ensures initialized == (old(initialized) || outcome.Ok?)
      ensures calls == old(calls) + [Call.ReadConf(path, outcome)]
    {
      initialized := initialized || outcome.Ok?;
      calls := calls + [Call.ReadConf(path, outcome)];
      err := outcome;
    }

    /** conf.SetDynamicDefaults, whose outcome is `outcome`. */
    method SetDynamicDefaults(outcome: Outcome) returns (err: Outcome)
      modifies this
      ensures err == outcome && level == old(level) && initialized == old(initialized)
      ensures calls == old(calls) + [Call.SetDynamicDefaults(outcome)]
    {
      calls := calls + [Call.SetDynamicDefaults(outcome)];
      err := outcome;
    }

    /** Lines 69-78: the shorthand level, then the unclamped override. */
    method ApplyLogLevel(flags: Flags)
      modifies this
      ensures level == SelectLevel(flags.debug, flags.verbose, flags.logLevel)
      ensures initialized == old(initialized)
      ensures calls == old(calls) + LevelWrites(flags)
    {
      if flags.debug {
        SetLogLevel(DEBUG);
      } else if flags.verbose {
        SetLogLevel(VERBOSE);
      } else {
        SetLogLevel(INFO);
      }
      if flags.logLevel != INFO {
        SetLogLevel(flags.logLevel);
      }
    }

    /** Lines 79-90: one ReadConf from the resolved path when a load is
        needed, SetDynamicDefaults otherwise; that call's error is returned. */
    method ResolveConfig(flags: Flags, env: map<string, string>, readConf: string -> Outcome, dynamicDefaults: Outcome)
      returns (err: Outcome)
      modifies this
      ensures var c := ConfigCall(old(initialized), Invocation(flags, env, readConf, dynamicDefaults));
              calls == old(calls) + [c] && err == c.result
              && initialized == (old(initialized) || (c.ReadConf? && c.result.Ok?))
      ensures level == old(level)
    {
      if !flags.emptyConf && !initialized {
        if flags.warewulfConf != "" {
          err := ReadConf(flags.warewulfConf, readConf(flags.warewulfConf));
        } else if Getenv(env, EnvVar) != "" {
          err := ReadConf(Getenv(env, EnvVar), readConf(Getenv(env, EnvVar)));
        } else {
          err := ReadConf(ConfigFile, readConf(ConfigFile));
        }
      } else {
        err := SetDynamicDefaults(dynamicDefaults);
      }
    }

    /** rootPersistentPreRunE: set the log level, then load or default the
        configuration, returning that call's error. */
    method PreRun(flags: Flags, env: map<string, string>, readConf: string -> Outcome, dynamicDefaults: Outcome)
      returns (err: Outcome)
      modifies this
      ensures var r := Step(old(Current()), Invocation(flags, env, readConf, dynamicDefaults));
              Current() == r.state && err == r.err
      ensures LoadAccounting(old(Current())) ==> LoadAccounting(Current())
    {
      ghost var before := Current();
      ApplyLogLevel(flags);
      err := ResolveConfig(flags, env, readConf, dynamicDefaults);
      if LoadAccounting(before) {
        StepKeepsLoadAccounting(before, Invocation(flags, env, readConf, dynamicDefaults));
      }
    }
  }
}
