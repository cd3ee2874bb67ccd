/** `run`: the process entry point. It drops the program name and, when cargo invoked the
    tool as `cargo minify`, the subcommand name; runs `execute` on the rest; and turns
    its result into the process's exit status. */
module EntryPoint {
  import opened Errors
  import opened Pipeline
  import CrateResolution
  import FileResolution

  const SubcommandName: string := "minify"

  /** How the process ends: with a status code, or by a panic that escapes `execute`. */
  datatype ProcessExit = Exited(code: int) | Panicked

  /** The status code for what `execute` returned: 0 for success, 1 for errors in the
      user's arguments, 2 for an encoding error, 3 for an I/O error. */
  function ExitCode(r: Result<()>): (code: int)
    ensures 0 <= code <= 3
    ensures code == 0 <==> r.Ok?
    ensures code == 1 <==> r.Err? && IsUsageError(r.error)
    ensures code == 2 <==> r.Err? && r.error.Utf8?
    ensures code == 3 <==> r.Err? && r.error.Io?
  {
    match r
    case Err(Io(_)) => 3
    case Err(Utf8(_)) => 2
    case Err(Args(_)) => 1
    case Err(CommandLine(_)) => 1
    case _ => 0
  }

  /** The arguments `execute` receives: the process arguments without the program name,
      and without a following subcommand name. They are a suffix of `argv`, in order. */
  function ExecuteArgs(argv: seq<string>): (args: seq<string>)
    ensures |args| <= |argv| && args == argv[|argv| - |args|..]
    ensures |argv| - |args| ==
      if argv == [] then 0
      else if |argv| >= 2 && argv[1] == SubcommandName then 2
      else 1
  {
    if argv == [] then []
    else if |argv| >= 2 && argv[1] == SubcommandName then argv[2..]
    else argv[1..]
  }

  /** The peekable iterator of the source: `pos` is its position in `argv`; `next` advances
      it when it is not exhausted, `peek` looks at `argv[pos]`; `collect` gathers the
      remaining elements one by one. */
  method CollectExecuteArgs(argv: seq<string>) returns (args: seq<string>)
    ensures args == ExecuteArgs(argv)
  {
    var pos := 0;
    if pos < |argv| {
      pos := pos + 1;
    }
    if pos < |argv| && argv[pos] == SubcommandName {
      pos := pos + 1;
    }
    ghost var start := pos;
    args := [];
    while pos < |argv|
      invariant start <= pos <= |argv|
      invariant args == argv[start..pos]
    {
      args := args + [argv[pos]];
      pos := pos + 1;
    }
  }

  /** The exit status of a run on `argv`; the order of its steps is that of the source. */
  method Run(argv: seq<string>, env: Environment) returns (exit: ProcessExit)
    ensures Execute(ExecuteArgs(argv), env).termination.Panic? <==> exit.Panicked?
    ensures Execute(ExecuteArgs(argv), env).termination.Return? ==>
      exit == Exited(ExitCode(Execute(ExecuteArgs(argv), env).termination.result))
  {
    var args := CollectExecuteArgs(argv);
    var execution := Execute(args, env);
    match execution.termination
    case Return(result) =>
      exit := Exited(ExitCode(result));
    case Panic(_) =>
      exit := Panicked;
  }

  /** Called as `cargo minify ARGS` (cargo passes the subcommand name after the program
      name) or directly as `cargo-minify ARGS`, the tool does the same thing, unless ARGS
      itself starts with the subcommand name. */
  lemma CargoInvocationIsTransparent(cargoBin: string, directBin: string, rest: seq<string>, env: Environment)
    requires rest == [] || rest[0] != SubcommandName
    ensures ExecuteArgs([cargoBin, SubcommandName] + rest) == rest
    ensures ExecuteArgs([directBin] + rest) == rest
    ensures Execute(ExecuteArgs([cargoBin, SubcommandName] + rest), env) ==
            Execute(ExecuteArgs([directBin] + rest), env)
  {
  }

  /** Only one subcommand name is dropped: a literal `minify` argument given after it
      reaches `execute`. */
  lemma OnlyOneSubcommandNameIsDropped(bin: string, rest: seq<string>)
    ensures ExecuteArgs([bin, SubcommandName, SubcommandName] + rest) == [SubcommandName] + rest
  {
  }

  /** The exit status tells the error categories apart: argument errors, encoding errors
      and I/O errors never share a code, and none of them shares success's code. */
  lemma ExitCodeSeparatesCategories(e1: Error, e2: Error)
    requires IsUsageError(e1) != IsUsageError(e2) || e1.Io? != e2.Io? || e1.Utf8? != e2.Utf8?
    ensures ExitCode(Err(e1)) != ExitCode(Err(e2))
    ensures ExitCode(Err(e1)) != ExitCode(Ok(()))
  {
  }

  /** A refused `--apply` (version-control error, no repository, dirty or staged files)
      ends the process with status 0. */
  lemma RefusedApplyExitsZero(argv: seq<string>, env: Environment)
    requires Proceeds(ExecuteArgs(argv), env) && CargoAnswers(ExecuteArgs(argv), env)
    requires env.parse(ExecuteArgs(argv)).options.apply
    requires !GateFor(ExecuteArgs(argv), env).Commit?
    ensures Execute(ExecuteArgs(argv), env).termination == Return(Ok(()))
    ensures ExitCode(Execute(ExecuteArgs(argv), env).termination.result) == 0
  {
    RefusedApplyReturnsOk(ExecuteArgs(argv), env);
  }

  /** A rejected combination of scope options ends the process with status 1, and writes
      nothing. */
  lemma ConflictingOptionsExitOne(argv: seq<string>, env: Environment)
    requires env.parse(ExecuteArgs(argv)).Parsed?
    requires var opts := env.parse(ExecuteArgs(argv)).options;
      CrateResolution.FromOptions(opts).Err? || FileResolution.FromOptions(opts).Err?
    ensures Execute(ExecuteArgs(argv), env).commit.None?
    ensures Execute(ExecuteArgs(argv), env).termination.Return?
    ensures ExitCode(Execute(ExecuteArgs(argv), env).termination.result) == 1
  {
  }
}
