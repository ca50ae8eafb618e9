/**
 * Command-line dispatch of the module-manager player
 * (surge_player/source/cli.cpp): a help or version flag prints and stops,
 * one other argument is the module file and runs if it and `config.yaml`
 * are valid paths, no argument runs if `config.yaml` is valid, and
 * anything else prints the usage and stops. Which paths are valid is the
 * file system's answer, given as a set.
 */
module CliArgs {
  /** What parse_arguments prints. */
  datatype Printed = NothingPrinted | Usage | Version

  predicate IsHelpFlag(a: string)
  {
    a == "-h" || a == "--help"
  }

  predicate IsVersionFlag(a: string)
  {
    a == "-v" || a == "--version"
  }

  /** parse_arguments over `argv`, `argv[0]` being the program; `true`
      lets the player go on. */
  function ParseArguments(argv: seq<string>, valid: set<string>): (r: (bool, Printed))
  {
    if |argv| == 2 && IsHelpFlag(argv[1]) then (false, Usage)
    else if |argv| == 2 && IsVersionFlag(argv[1]) then (false, Version)
    else if |argv| == 2 then ("config.yaml" in valid && argv[1] in valid, NothingPrinted)
    else if |argv| == 1 then ("config.yaml" in valid, NothingPrinted)
    else (false, Usage)
  }

  /** The player goes on exactly when `config.yaml` is valid and either no
      argument was given, or one argument that is neither flag and is a
      valid path; it prints exactly when it stops for a flag or a wrong
      argument count, the version only for a version flag; and whatever it
      prints, it stops. */
  lemma ParseArgumentsDispatch(argv: seq<string>, valid: set<string>)
    ensures var (go, printed) := ParseArguments(argv, valid);
      && (go <==>
            && "config.yaml" in valid
            && (|argv| == 1 || (|argv| == 2 && !IsHelpFlag(argv[1]) && !IsVersionFlag(argv[1]) && argv[1] in valid)))
      && (printed == Version <==> |argv| == 2 && IsVersionFlag(argv[1]) && !IsHelpFlag(argv[1]))
      && (printed == Usage <==> (|argv| == 2 && IsHelpFlag(argv[1])) || (|argv| != 1 && |argv| != 2))
      && (printed != NothingPrinted ==> !go)
  {
  }

  /** A module file named like a flag can never be given: the flag wins. */
  lemma FlagNamedModuleIsUnreachable(prog: string, valid: set<string>)
    ensures ParseArguments([prog, "-h"], valid) == (false, Usage)
    ensures ParseArguments([prog, "--version"], valid) == (false, Version)
  {
  }
}
