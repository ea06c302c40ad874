/** Log levels of the wwlog package and the log-level selection made by the
    root pre-run hook (internal/app/wwctl/root.go, lines 69-78). */
module WwLog {
  import opened Precedence

  // Three distinct levels; a lower number means more output. The selection
  // proofs use only their distinctness; OverrideIsNotMinOrMax also uses the
  // order DEBUG < VERBOSE < INFO and the particular values it names.
  const DEBUG: int := 10
  const VERBOSE: int := 15
  /** Also the default of the hidden `--loglevel` flag, where it means "no override". */
  const INFO: int := 20

  /** The level chosen from the boolean shorthands alone: `--debug` beats
      `--verbose`, which beats the INFO default. */
  function ShorthandLevel(debug: bool, verbose: bool): (level: int)
    ensures level == DEBUG <==> debug
    ensures level == VERBOSE <==> !debug && verbose
    ensures level == INFO <==> !debug && !verbose
  {
    if debug then DEBUG
    else if verbose then VERBOSE
    else INFO
  }

  /** The effective level: the shorthand choice, then an explicit `--loglevel`
      that differs from INFO overrides it, unclamped. */
  function SelectLevel(debug: bool, verbose: bool, logLevel: int): (level: int)
    ensures logLevel != INFO ==> level == logLevel
    ensures logLevel == INFO ==> (level == DEBUG <==> debug)
    ensures logLevel == INFO ==> (level == VERBOSE <==> !debug && verbose)
    ensures logLevel == INFO ==> (level == INFO <==> !debug && !verbose)
  {
    if logLevel != INFO then logLevel else ShorthandLevel(debug, verbose)
  }

  /** The two-stage selection is the priority chain
      override > debug > verbose > INFO. */
  lemma SelectLevelIsPriorityChain(debug: bool, verbose: bool, logLevel: int)
    ensures SelectLevel(debug, verbose, logLevel)
         == FirstApplicable([Candidate(logLevel != INFO, logLevel), Candidate(debug, DEBUG), Candidate(verbose, VERBOSE)], INFO)
  {
    var chain := [Candidate(logLevel != INFO, logLevel), Candidate(debug, DEBUG), Candidate(verbose, VERBOSE)];
    var shorthands := [Candidate(debug, DEBUG), Candidate(verbose, VERBOSE)];
    assert chain[1..] == shorthands;
    assert shorthands[1..] == [Candidate(verbose, VERBOSE)];
    assert shorthands[1..][1..] == [];
    assert FirstApplicable(shorthands, INFO) == ShorthandLevel(debug, verbose);
  }

  /** The override is neither a minimum nor a maximum of the inputs: it can make
      the output quieter than `--debug` asked for, and it can go below DEBUG.
      This relies on the order of the three levels, stated first. */
  lemma OverrideIsNotMinOrMax()
    ensures DEBUG < VERBOSE < INFO
    ensures SelectLevel(true, true, 7) == 7
    ensures SelectLevel(true, false, INFO + 10) > INFO
    ensures SelectLevel(false, false, DEBUG - 5) < DEBUG
  {
  }
}
