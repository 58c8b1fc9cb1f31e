/**
 * The command line of the test-data seeding script: `--db <path>`,
 * `--reset` and `--help`/`-h`, with `--` ignored. Printing and exiting the
 * process are outcomes here, each with the exit status the script uses.
 */
module SeedArgs {
  import opened Wrappers
  import opened JsValues

  datatype SeedArgs = SeedArgs(dbPath: string, reset: bool)

  const DEFAULT: SeedArgs := SeedArgs("./elly.db", false)
  const MISSING_DB_VALUE: string := "Missing value for --db"

  datatype ParseOutcome =
    | Parsed(args: SeedArgs)
    /** The help text was printed. */
    | Help
    /** An error was printed. */
    | Failed(message: string)

  /** The status the script exits with; a parsed command line continues. */
  function ExitCode(o: ParseOutcome): Option<int> {
    match o
    case Parsed(_) => None
    case Help => Some(0)
    case Failed(_) => Some(1)
  }

  function UnknownArg(a: string): string {
    "Unknown arg: " + a
  }

  /** Parsing the remaining tokens `rest` into `args`. */
  function ParseFrom(rest: seq<string>, args: SeedArgs): ParseOutcome
    decreases |rest|
  {
    if rest == [] then Parsed(args)
    else
      var a := rest[0];
      if a == "--" then ParseFrom(rest[1..], args)
      else if a == "--help" || a == "-h" then Help
      else if a == "--reset" then ParseFrom(rest[1..], args.(reset := true))
      else if a == "--db" then
        if |rest| < 2 || rest[1] == "" then Failed(MISSING_DB_VALUE)
        else ParseFrom(rest[2..], args.(dbPath := rest[1]))
      else Failed(UnknownArg(a))
  }

  /** `parseArgs(argv)`. */
  method ParseArgs(argv: seq<string>) returns (outcome: ParseOutcome)
    ensures outcome == ParseFrom(argv, DEFAULT)
  {
    var args := DEFAULT;
    var i := 0;
    while i < |argv|
      invariant 0 <= i <= |argv|
      invariant ParseFrom(argv[i..], args) == ParseFrom(argv, DEFAULT)
      decreases |argv| - i
    {
      var a := argv[i];
      if a == "--" {
        i := i + 1;
        continue;
      }
      if a == "--help" || a == "-h" {
        return Help;
      }
      if a == "--reset" {
        args := args.(reset := true);
        i := i + 1;
        continue;
      }
      if a == "--db" {
        var v := if i + 1 < |argv| then Some(argv[i + 1]) else None;
        if v.None? || v.value == "" {
          return Failed(MISSING_DB_VALUE);
        }
        args := args.(dbPath := v.value);
        assert argv[i..][2..] == argv[i + 2..];
        i := i + 2;
        continue;
      }
      return Failed(UnknownArg(a));
    }
    return Parsed(args);
  }

  // ---------------------------------------------------------------------
  // Properties of the parser

  /** No arguments, or only `--`, give the defaults. */
  lemma {:induction false} OnlySeparators(argv: seq<string>)
    requires forall i :: 0 <= i < |argv| ==> argv[i] == "--"
    ensures ParseFrom(argv, DEFAULT) == Parsed(SeedArgs("./elly.db", false))
    decreases |argv|
  {
    if argv != [] {
      OnlySeparators(argv[1..]);
    }
  }

  /** `--` is skipped wherever it appears. */
  lemma SeparatorSkipped(rest: seq<string>, args: SeedArgs)
    ensures ParseFrom(["--"] + rest, args) == ParseFrom(rest, args)
  {
    assert (["--"] + rest)[1..] == rest;
  }

  /** `--reset` sets the flag, and repeating it changes nothing more. */
  lemma ResetIdempotent(rest: seq<string>, args: SeedArgs)
    ensures ParseFrom(["--reset"] + rest, args) == ParseFrom(rest, args.(reset := true))
    ensures ParseFrom(["--reset", "--reset"] + rest, args) == ParseFrom(["--reset"] + rest, args)
  {
    assert (["--reset"] + rest)[1..] == rest;
    assert (["--reset", "--reset"] + rest)[1..] == ["--reset"] + rest;
  }

  /** `--db v` takes `v` as the path, even when `v` looks like an option, and
      parsing resumes after it; of two `--db`, the last wins. */
  lemma DbConsumesValue(v: string, rest: seq<string>, args: SeedArgs)
    requires v != ""
    ensures ParseFrom(["--db", v] + rest, args) == ParseFrom(rest, args.(dbPath := v))
  {
    assert (["--db", v] + rest)[2..] == rest;
  }

  lemma LastDbWins(v: string, w: string, rest: seq<string>, args: SeedArgs)
    requires v != "" && w != ""
    ensures ParseFrom(["--db", v, "--db", w] + rest, args) == ParseFrom(["--db", w] + rest, args)
  {
    DbConsumesValue(v, ["--db", w] + rest, args);
    assert ["--db", v, "--db", w] + rest == ["--db", v] + (["--db", w] + rest);
    DbConsumesValue(w, rest, args.(dbPath := v));
    DbConsumesValue(w, rest, args);
  }

  /** `--db` with nothing after it, or with an empty string, exits with
      status 1. */
  lemma DbMissingValue(rest: seq<string>, args: SeedArgs)
    ensures ParseFrom(["--db"], args) == Failed(MISSING_DB_VALUE)
    ensures ParseFrom(["--db", ""] + rest, args) == Failed(MISSING_DB_VALUE)
    ensures ExitCode(Failed(MISSING_DB_VALUE)) == Some(1)
  {
  }

  /** `--help` or `-h` stops parsing with status 0, whatever follows; any
      other unknown token stops it with status 1. */
  lemma HelpAndUnknown(a: string, rest: seq<string>, args: SeedArgs)
    ensures (a == "--help" || a == "-h") ==> ParseFrom([a] + rest, args) == Help && ExitCode(Help) == Some(0)
    ensures a !in {"--", "--help", "-h", "--reset", "--db"} ==>
              ParseFrom([a] + rest, args) == Failed(UnknownArg(a)) && ExitCode(Failed(UnknownArg(a))) == Some(1)
  {
  }

  /** A parsed command line takes its path from a `--db` value on it, or keeps
      the default, and sets `reset` only if `--reset` is on it. */
  lemma {:induction false} ParsedFromArgv(argv: seq<string>, args: SeedArgs)
    requires ParseFrom(argv, args).Parsed?
    ensures var a := ParseFrom(argv, args).args;
            (a.dbPath == args.dbPath ||
             exists i :: 1 <= i < |argv| && argv[i - 1] == "--db" && argv[i] == a.dbPath) &&
            (a.reset ==> args.reset || "--reset" in argv)
    decreases |argv|
  {
    if argv != [] {
      var a := ParseFrom(argv, args).args;
      if argv[0] == "--" {
        ParsedFromArgv(argv[1..], args);
        ShiftWitness(argv, 1, a.dbPath);
      } else if argv[0] == "--reset" {
        ParsedFromArgv(argv[1..], args.(reset := true));
        ShiftWitness(argv, 1, a.dbPath);
      } else {
        assert argv[0] == "--db";
        ParsedFromArgv(argv[2..], args.(dbPath := argv[1]));
        ShiftWitness(argv, 2, a.dbPath);
        assert a.dbPath == argv[1] || exists i :: 1 <= i < |argv[2..]| && argv[2..][i - 1] == "--db" && argv[2..][i] == a.dbPath;
        assert "--reset" in argv[2..] ==> "--reset" in argv;
      }
    }
  }

  /** A `--db` value found in a suffix is found in the whole command line. */
  lemma ShiftWitness(argv: seq<string>, k: nat, v: string)
    requires k <= |argv|
    ensures (exists i :: 1 <= i < |argv[k..]| && argv[k..][i - 1] == "--db" && argv[k..][i] == v) ==>
            (exists i :: 1 <= i < |argv| && argv[i - 1] == "--db" && argv[i] == v)
  {
    if exists i :: 1 <= i < |argv[k..]| && argv[k..][i - 1] == "--db" && argv[k..][i] == v {
      var i :| 1 <= i < |argv[k..]| && argv[k..][i - 1] == "--db" && argv[k..][i] == v;
      assert argv[i + k - 1] == "--db" && argv[i + k] == v;
    }
  }
}
