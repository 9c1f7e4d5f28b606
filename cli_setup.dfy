/** `setup_root_parser` of adit_radis_shared/cli/setup.py: the command
    line is cut at the first "--"; what comes before it is parsed, and what
    comes after it is handed to the selected command untouched. The
    argument parser itself is a parameter. */
module CliSetup {
  import opened Wrappers

  const Separator: string := "--"

  /** `args.index("--")`, or `|args|` when "--" is not there. */
  function SeparatorIndex(args: seq<string>): (i: nat)
    ensures i <= |args|
    ensures i < |args| ==> args[i] == Separator
    ensures forall j :: 0 <= j < i ==> args[j] != Separator
  {
    if args == [] then 0
    else if args[0] == Separator then 0
    else
      var i := 1 + SeparatorIndex(args[1..]);
      assert forall j :: 1 <= j < i ==> args[j] == args[1..][j - 1];
      i
  }

  /** The arguments before the first "--" and the ones after it. */
  function SplitArgs(args: seq<string>): (seq<string>, seq<string>) {
    if Separator in args then
      var idx := SeparatorIndex(args);
      (args[..idx], args[idx + 1..])
    else (args, [])
  }

  /** With a "--", the two parts and the separator between them give the
      arguments back, and the first part holds no "--"; later "--" stay in
      the second part. */
  lemma SplitArgsWithSeparator(args: seq<string>)
    requires Separator in args
    ensures var (pre, post) := SplitArgs(args);
      && pre + [Separator] + post == args
      && Separator !in pre
      && |post| < |args|
  {
    var (pre, post) := SplitArgs(args);
    var idx := SeparatorIndex(args);
    assert idx < |args|;
    assert args[..idx] + [args[idx]] + args[idx + 1..] == args;
  }

  /** Without a "--", everything is parsed and nothing is passed on. */
  lemma SplitArgsWithoutSeparator(args: seq<string>)
    requires Separator !in args
    ensures SplitArgs(args) == (args, [])
  {
  }

  /** The part after the first "--" is passed on as it is, whatever it
      holds. */
  lemma SplitArgsKeepsTail(pre: seq<string>, post: seq<string>)
    requires Separator !in pre
    ensures SplitArgs(pre + [Separator] + post) == (pre, post)
  {
    var args := pre + [Separator] + post;
    assert args[|pre|] == Separator;
    assert SeparatorIndex(args) == |pre| by {
      forall j | 0 <= j < |pre| ensures args[j] != Separator {
        assert args[j] == pre[j];
      }
      SeparatorIndexAt(args, |pre|);
    }
    assert args[..|pre|] == pre;
    assert args[|pre| + 1..] == post;
  }

  /** The index is fixed by the arguments before it and the one at it. */
  lemma SeparatorIndexAt(args: seq<string>, i: nat)
    requires i < |args| && args[i] == Separator
    requires forall j :: 0 <= j < i ==> args[j] != Separator
    ensures SeparatorIndex(args) == i
  {
  }

  /** What `parse_known_args` gives: the selected subcommand, if any, and
      the arguments it did not know. */
  datatype Parsed<Command> = Parsed(command: Option<Command>, unknown: seq<string>)

  /** How `setup_root_parser` ends: the parser error for unknown
      arguments, the help and exit status 1 for a missing subcommand, or
      one call of the subcommand with `extra_args`. */
  datatype Outcome<Command> =
    | UnknownArguments(unknown: seq<string>)
    | HelpAndExit(status: int)
    | Call(command: Command, extraArgs: seq<string>)

  /** `setup_root_parser` for the command line `argv` (`sys.argv`) and the
      root parser `parse`. */
  function SetupRootParser<Command>(argv: seq<string>, parse: seq<string> -> Parsed<Command>): (r: Outcome<Command>)
    ensures var args := if argv == [] then [] else argv[1..];
      var parsed := parse(SplitArgs(args).0);
      && (r.UnknownArguments? <==> parsed.unknown != [])
      && (r.UnknownArguments? ==> r.unknown == parsed.unknown)
      && (r.HelpAndExit? <==> parsed.unknown == [] && parsed.command.None?)
      && (r.HelpAndExit? ==> r.status == 1)
      && (r.Call? ==> parsed.command == Some(r.command) && r.extraArgs == SplitArgs(args).1)
  {
    var args := if argv == [] then [] else argv[1..];
    var (pre, post) := SplitArgs(args);
    var parsed := parse(pre);
    if parsed.unknown != [] then UnknownArguments(parsed.unknown)
    else if parsed.command.None? then HelpAndExit(1)
    else Call(parsed.command.value, post)
  }

  /** The subcommand receives exactly what follows the first "--". */
  lemma SetupPassesTail<Command>(program: string, pre: seq<string>, post: seq<string>, parse: seq<string> -> Parsed<Command>)
    requires Separator !in pre
    requires parse(pre).unknown == [] && parse(pre).command.Some?
    ensures SetupRootParser([program] + pre + [Separator] + post, parse) == Call(parse(pre).command.value, post)
  {
    var argv := [program] + pre + [Separator] + post;
    assert argv[1..] == pre + [Separator] + post;
    SplitArgsKeepsTail(pre, post);
  }
}
