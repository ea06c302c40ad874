/** The configuration-source decision of the root pre-run hook
    (internal/app/wwctl/root.go, lines 79-90): whether a load is needed, and
    from which path. */
module Config {
  import opened Precedence

  /** What a call into the configuration package returns: no error, or an error. */
  datatype Outcome = Ok | Err(msg: string)

  /** The environment variable that may name the configuration file. */
  const EnvVar: string := "WAREWULFCONF"

  /** The package's fixed default configuration path. */
  const ConfigFile: string := "/etc/warewulf/warewulf.conf"

  /** The process environment as `os.Getenv` sees it: an unset variable reads as "". */
  function Getenv(env: map<string, string>, name: string): (value: string)
    ensures name in env ==> value == env[name]
    ensures value == "" <==> name !in env || env[name] == ""
  {
    if name in env then env[name] else ""
  }

  /** A file load is needed unless empty configuration is allowed or the
      configuration is already initialised. */
  predicate NeedsLoad(allowEmptyConf: bool, initialized: bool)
    ensures allowEmptyConf ==> !NeedsLoad(allowEmptyConf, initialized)
    ensures initialized ==> !NeedsLoad(allowEmptyConf, initialized)
  {
    !allowEmptyConf && !initialized
  }

  /** The path a load reads: `--warewulfconf`, else WAREWULFCONF, else the default. */
  function ConfigPath(confArg: string, env: map<string, string>): (path: string)
    ensures path != ""
    ensures confArg != "" ==> path == confArg
    ensures confArg == "" && Getenv(env, EnvVar) != "" ==> path == Getenv(env, EnvVar)
    ensures confArg == "" && Getenv(env, EnvVar) == "" ==> path == ConfigFile
  {
    if confArg != "" then confArg
    else if Getenv(env, EnvVar) != "" then Getenv(env, EnvVar)
    else ConfigFile
  }

  /** The path resolution is the priority chain flag > environment > default,
      where a source applies when it is non-empty. */
  lemma ConfigPathIsPriorityChain(confArg: string, env: map<string, string>)
    ensures ConfigPath(confArg, env)
         == FirstApplicable([Candidate(confArg != "", confArg), Candidate(Getenv(env, EnvVar) != "", Getenv(env, EnvVar))], ConfigFile)
  {
  }

  /** Later sources are never consulted: with `--warewulfconf` set the
      environment is irrelevant, and otherwise only WAREWULFCONF in it matters.
      This is the concrete form of Precedence.LaterCandidatesIgnored for the
      chain of ConfigPathIsPriorityChain. */
  lemma ConfigPathReadsOnlyItsSources(confArg: string, env1: map<string, string>, env2: map<string, string>)
    requires confArg != "" || Getenv(env1, EnvVar) == Getenv(env2, EnvVar)
    ensures ConfigPath(confArg, env1) == ConfigPath(confArg, env2)
  {
  }
}
