# wwctl root pre-run hook

A Dafny model of the pre-execution hook of Warewulf's `wwctl` command
(`rootPersistentPreRunE`), which runs before every subcommand and makes two
decisions:

- **log level**: `--debug` beats `--verbose`, which beats the INFO default;
  then an explicit hidden `--loglevel` that differs from INFO overrides that
  choice, unclamped;
- **configuration**: with `--emptyconf` or an already initialised
  configuration singleton, only `SetDynamicDefaults` is called; otherwise
  exactly one `ReadConf`, from `--warewulfconf`, else the `WAREWULFCONF`
  environment variable, else the fixed default path. The hook returns
  whatever error that one call returned.

Files and modules:

- `precedence.dfy` (`Precedence`): a generic priority chain ("first
  applicable candidate wins, the rest are never consulted"), the reference
  definition both decisions are proved against.
- `wwlog.dfy` (`WwLog`): the levels DEBUG, VERBOSE, INFO and the level
  selection.
- `config.dfy` (`Config`): call outcomes, the environment lookup, the
  load-needed test and the configuration path resolution.
- `root.dfy` (`Root`): the root command's flags and their defaults, the trace
  of calls into the logging and configuration packages, the hook as a function
  of the process state (`Step`), repeated invocations (`Run`), and the class
  `Process`, whose `PreRun` runs the hook step by step as the source does
  (level writes, then the configuration call) and is proved equal to `Step`.

The collaborators are abstract: `os.Getenv` is a map (an unset variable reads
as the empty string, and both reads of line 83-84 agree because they are one
pure lookup); `ReadConf` and `SetDynamicDefaults` are recorded calls whose
outcome is an input (`readConf` gives the outcome per path); `wwlog.SetLogLevel`
writes the `level` field.

The defaults-only branch returns `SetDynamicDefaults`' error (line 89), and so
does the model.

## Model

| member | source | states |
|---|---|---|
| `Precedence.FirstApplicable` | internal/app/wwctl/root.go:69-75 | the first candidate that applies (all before it not applying) supplies the result; when none applies, the fallback does |
| `Precedence.LaterCandidatesIgnored` | internal/app/wwctl/root.go:81-86 | once a candidate applies, the candidates after it and the fallback cannot change the result (short-circuit) |
| `WwLog.ShorthandLevel` | internal/app/wwctl/root.go:69-75 | DEBUG exactly when `--debug`; VERBOSE exactly when `--verbose` without `--debug`; INFO exactly when neither |
| `WwLog.SelectLevel` | internal/app/wwctl/root.go:69-78 | a `--loglevel` other than INFO is the result whatever the booleans, unclamped; at the INFO sentinel the result is DEBUG iff `--debug`, VERBOSE iff `--verbose` without `--debug`, INFO iff neither (so DEBUG wins when both are set) |
| `WwLog.SelectLevelIsPriorityChain` | internal/app/wwctl/root.go:69-78 | the two-stage selection equals the priority chain override > debug > verbose > INFO |
| `WwLog.OverrideIsNotMinOrMax` | internal/app/wwctl/root.go:76-78 | under the order DEBUG < VERBOSE < INFO (which it states), the override wins over `--debug` and `--verbose` (level 7 with both set gives 7), can be quieter than INFO with `--debug` set, and can go below DEBUG |
| `Config.Getenv` | internal/app/wwctl/root.go:83-84 | `os.Getenv` as one pure lookup, so both reads agree: the variable's value when set, and "" exactly when it is unset or set to "" |
| `Config.NeedsLoad` | internal/app/wwctl/root.go:80 | the load condition; `--emptyconf` alone and an initialised configuration alone each rule a load out |
| `Config.ConfigPath` | internal/app/wwctl/root.go:81-86 | the resolved path is never empty; it is `--warewulfconf` when that is non-empty, else WAREWULFCONF when that is non-empty, else the default path |
| `Config.ConfigPathIsPriorityChain` | internal/app/wwctl/root.go:81-86 | path resolution equals the priority chain flag > environment > default, a source applying when non-empty |
| `Config.ConfigPathReadsOnlyItsSources` | internal/app/wwctl/root.go:81-84 | with `--warewulfconf` set the environment does not affect the path; otherwise only WAREWULFCONF in it does (the concrete form of `Precedence.LaterCandidatesIgnored` for this chain) |
| `Root.DefaultFlags` | internal/app/wwctl/root.go:41-46 | the flag defaults select INFO, do not allow an empty configuration, and leave the path to WAREWULFCONF or the default path |
| `Root.LevelWrites` | internal/app/wwctl/root.go:69-78 | one or two SetLogLevel writes: first the shorthand level, then the override when `--loglevel` is not INFO; the last write is SelectLevel of the flags |
| `Root.ConfigCall` | internal/app/wwctl/root.go:79-90 | a configuration call; ReadConf exactly when a load is needed, from ConfigPath and carrying the outcome ReadConf gives for that path; otherwise SetDynamicDefaults carrying its outcome |
| `Root.Step` | internal/app/wwctl/root.go:68-92 | the hook keeps the earlier trace, adds level writes (the shorthand level, then the override when `--loglevel` is not INFO) and then one configuration call as its last call; the level is SelectLevel of the flags; the hook's error is that call's error unchanged, i.e. exactly what ReadConf returned for the resolved path or what SetDynamicDefaults returned; the call is ReadConf iff a load is needed (not `--emptyconf` and not initialised), from ConfigPath; initialised afterwards iff it was before or the needed load succeeded |
| `Root.StepCount` | internal/app/wwctl/root.go:68-92 | among the calls one hook run adds, only its last, the configuration call, can be a configuration call, a load or a successful load |
| `Root.StepMakesOneConfigCall` | internal/app/wwctl/root.go:79-90 | each hook run makes exactly one configuration call, and one ReadConf exactly when a load is needed (none with `--emptyconf` or an initialised configuration) |
| `Root.Run` | internal/app/wwctl/root.go:68-92 | repeated hook runs keep the trace's history, yield one error per invocation and make one configuration call per invocation |
| `Root.StepKeepsLoadAccounting` | internal/app/wwctl/root.go:79-90 | a hook run keeps "initialised iff exactly one successful load so far" |
| `Root.AtMostOneSuccessfulLoad` | internal/app/wwctl/root.go:80-87 | from an uninitialised configuration with no loads, any sequence of hook runs makes at most one successful load, and initialised is set exactly by it |
| `Root.NoReloadOnceInitialized` | internal/app/wwctl/root.go:80 | once initialised the configuration stays initialised and no later hook run calls ReadConf |
| `Root.EmptyConfRunsKeepConfig` | internal/app/wwctl/root.go:80-89 | with `--emptyconf` on every run, repeated hook runs never call ReadConf, leave initialised as it was, and each returns SetDynamicDefaults' error |
| `Root.DefaultFlagsLoadDefaultFile` | internal/app/wwctl/root.go:41-46 | with the flags' defaults, an uninitialised configuration and WAREWULFCONF empty, the hook writes INFO once and then reads the default path, returning that read's error |
| `Root.Process.constructor` | internal/app/wwctl/root.go:79 | a fresh process has an uninitialised configuration singleton and an empty trace |
| `Root.Process.SetLogLevel` | internal/app/wwctl/root.go:70-77 | sets the level and records the write, nothing else changes |
| `Root.Process.ReadConf` | internal/app/wwctl/root.go:82-86 | records the read, returns its outcome, and initialises the configuration when it succeeds |
| `Root.Process.SetDynamicDefaults` | internal/app/wwctl/root.go:89 | records the call and returns its outcome; the level and initialised flag are unchanged |
| `Root.Process.ApplyLogLevel` | internal/app/wwctl/root.go:69-78 | leaves the level at SelectLevel of the flags, having written the shorthand level and then the override if any |
| `Root.Process.ResolveConfig` | internal/app/wwctl/root.go:79-90 | appends the one configuration call of the hook and returns its error |
| `Root.Process.PreRun` | internal/app/wwctl/root.go:68-92 | the new state and the error are exactly those of `Step` on the old state; it keeps the load accounting invariant |

## Left out

- Command-tree construction in `init` (lines 40-61: registering the eleven
  subcommands, the persistent flags, hidden flags, usage and help templates)
  and `GetRootCommand`: cobra plumbing with no decision logic; the flag
  defaults it declares are modelled as `Root.DefaultFlags`.
- The internals of `ReadConf` and `SetDynamicDefaults` (file parsing, computed
  defaults): foreign code not part of this model. The model assumes a
  successful `ReadConf` makes the configuration initialised, a failed one
  leaves it as it was, and `SetDynamicDefaults` never changes it.
- The numeric values of `wwlog.DEBUG`, `wwlog.VERBOSE` and `wwlog.INFO`: the
  wwlog package is not part of this model; the model uses 10, 15 and 20. The
  selection proofs rely only on the three being distinct;
  `WwLog.OverrideIsNotMinOrMax` also relies on DEBUG < VERBOSE < INFO (which it
  states) and on the values 7, INFO + 10 and DEBUG - 5 differing from INFO.
- The value of the default path `warewulfconf.ConfigFile`: not part of this
  model; a fixed non-empty placeholder stands for it.
- `os.Getenv` as real environment I/O: the environment is an input map.
- The wwlog output sink and cobra's `SilenceUsage`/`SilenceErrors` (lines
  30-31): logging and framework effects, not decision logic.
