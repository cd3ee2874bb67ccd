/** `execute`: parse the arguments, resolve the crate and file scopes, collect the unused
    declarations, show the changes and, behind the apply gate, write them. Everything
    that runs cargo, git or touches files is a field of `Environment`, so the decision
    logic is a function of the arguments and of what those collaborators answer. */
module Pipeline {
  import opened Errors
  import opened Options
  import CrateResolution
  import FileResolution
  import ApplyGate

  /** A declaration that the compiler reported as unused. */
  datatype UnusedItem = UnusedItem(kind: UnusedDiagnosticKind, file: string, name: string, start: nat, end: nat)

  /** The rewrite of one file: its original and its new text. */
  datatype Change = Change(file: string, original: string, replacement: string)

  /** What the option parser makes of the arguments. */
  datatype Parsed = Parsed(options: MinifyOptions) | Rejected(message: string)

  datatype Environment = Environment(
    // the option parser
    parse: seq<string> -> Parsed,
    // run cargo and gather the unused declarations in scope
    getUnused: (Option<string>, CrateResolution.CrateResolutionOptions,
                FileResolution.FileResolutionOptions, seq<UnusedDiagnosticKind>) -> Result<seq<UnusedItem>>,
    // turn unused declarations into per-file rewrites
    processDiagnostics: (seq<UnusedItem>, Option<string>) -> seq<Change>,
    // the workspace root from cargo's metadata
    workspaceRoot: Option<string> -> Result<string>,
    // the version-control query on that root
    vcsStatus: string -> ApplyGate.VcsStatus,
    // write the rewrites to disk
    commitChanges: seq<Change> -> Result<()>)

  /** How `execute` ends: it returns a result, or it panics in the `unwrap` on a failed write. */
  datatype Termination = Return(result: Result<()>) | Panic(error: Error)

  /** `commit` holds the changes handed to `commit_changes`, if that call is reached. */
  datatype Execution = Execution(commit: Option<seq<Change>>, termination: Termination)

  /** The arguments were parsed, both scopes resolved, and help was not asked for: the
      point from which `execute` talks to cargo. */
  predicate Proceeds(args: seq<string>, env: Environment) {
    var parsed := env.parse(args);
    && parsed.Parsed?
    && CrateResolution.FromOptions(parsed.options).Ok?
    && FileResolution.FromOptions(parsed.options).Ok?
    && !parsed.options.help
  }

  function Execute(args: seq<string>, env: Environment): (e: Execution)
    // writing happens only through an accepted `--apply`, never with `--help`
    ensures e.commit.Some? ==> Proceeds(args, env) && env.parse(args).options.apply
    ensures e.termination.Panic? ==> e.commit.Some?
    // a parse error or a scope error is returned before any collaborator is consulted
    ensures env.parse(args).Rejected? ==> e == Execution(None, Return(Err(CommandLine(env.parse(args).message))))
    ensures env.parse(args).Parsed? && CrateResolution.FromOptions(env.parse(args).options).Err? ==>
      e == Execution(None, Return(Err(CrateResolution.FromOptions(env.parse(args).options).error)))
    ensures env.parse(args).Parsed? && CrateResolution.FromOptions(env.parse(args).options).Ok?
            && FileResolution.FromOptions(env.parse(args).options).Err? ==>
      e == Execution(None, Return(Err(FileResolution.FromOptions(env.parse(args).options).error)))
    // `--help` is answered once both scopes are resolved, and is not an error
    ensures env.parse(args).Parsed? && env.parse(args).options.help
            && CrateResolution.FromOptions(env.parse(args).options).Ok?
            && FileResolution.FromOptions(env.parse(args).options).Ok? ==>
      e == Execution(None, Return(Ok(())))
    // a failure of either cargo query is returned as is, and nothing is written
    ensures Proceeds(args, env) ==>
      var opts := env.parse(args).options;
      var unused := env.getUnused(opts.manifestPath, CrateResolution.FromOptions(opts).value,
                                  FileResolution.FromOptions(opts).value, opts.kinds);
      var root := env.workspaceRoot(opts.manifestPath);
      && (unused.Err? ==> e == Execution(None, Return(Err(unused.error))))
      && (unused.Ok? && root.Err? ==> e == Execution(None, Return(Err(root.error))))
    // once cargo has answered, the run succeeds, whether it previews, is refused or
    // writes; only a failed write ends it otherwise, in a panic
    ensures Proceeds(args, env) && CargoAnswers(args, env) ==>
      e.termination == Return(Ok(())) || e.termination.Panic?
    ensures e.termination.Panic? <==> e.commit.Some? && env.commitChanges(e.commit.value).Err?
    ensures e.termination.Panic? ==> e.termination.error == env.commitChanges(e.commit.value).error
    // an error is returned only by a run that wrote nothing
    ensures e.termination.Return? && e.termination.result.Err? ==> e.commit.None?
  {
    match env.parse(args)
    case Rejected(message) => Execution(None, Return(Err(CommandLine(message))))
    case Parsed(opts) =>
      var manifestPath := opts.manifestPath;
      match CrateResolution.FromOptions(opts)
      case Err(err) => Execution(None, Return(Err(err)))
      case Ok(crateResolution) =>
        match FileResolution.FromOptions(opts)
        case Err(err) => Execution(None, Return(Err(err)))
        case Ok(fileResolution) =>
          if opts.help then Execution(None, Return(Ok(())))
          else
            match env.getUnused(manifestPath, crateResolution, fileResolution, opts.kinds)
            case Err(err) => Execution(None, Return(Err(err)))
            case Ok(unused) =>
              var changes := env.processDiagnostics(unused, manifestPath);
              match env.workspaceRoot(manifestPath)
              case Err(err) => Execution(None, Return(Err(err)))
              case Ok(cargoRoot) =>
                if !opts.apply then Execution(None, Return(Ok(())))
                else
                  var gate := ApplyGate.Decide(env.vcsStatus(cargoRoot), opts.allowNoVcs, opts.allowDirty, opts.allowStaged);
                  if !gate.Commit? then Execution(None, Return(Ok(())))
                  else
                    match env.commitChanges(changes)
                    case Ok(_) => Execution(Some(changes), Return(Ok(())))
                    case Err(err) => Execution(Some(changes), Panic(err))
  }

  /** Cargo answered both queries of a run that proceeds. */
  predicate CargoAnswers(args: seq<string>, env: Environment)
    requires Proceeds(args, env)
  {
    var opts := env.parse(args).options;
    && env.getUnused(opts.manifestPath, CrateResolution.FromOptions(opts).value,
                     FileResolution.FromOptions(opts).value, opts.kinds).Ok?
    && env.workspaceRoot(opts.manifestPath).Ok?
  }

  /** The changes a run that proceeds derives from the unused declarations. */
  function ChangesFor(args: seq<string>, env: Environment): seq<Change>
    requires Proceeds(args, env) && CargoAnswers(args, env)
  {
    var opts := env.parse(args).options;
    var unused := env.getUnused(opts.manifestPath, CrateResolution.FromOptions(opts).value,
                                FileResolution.FromOptions(opts).value, opts.kinds);
    env.processDiagnostics(unused.value, opts.manifestPath)
  }

  /** The gate's verdict for a run that proceeds and that cargo answered. */
  function GateFor(args: seq<string>, env: Environment): ApplyGate.Gate
    requires Proceeds(args, env) && CargoAnswers(args, env)
  {
    var opts := env.parse(args).options;
    ApplyGate.Decide(env.vcsStatus(env.workspaceRoot(opts.manifestPath).value),
                     opts.allowNoVcs, opts.allowDirty, opts.allowStaged)
  }

  /** `commit_changes` is reached exactly when the arguments are accepted, help is not
      asked for, cargo answered both queries, `--apply` is set and the gate lets it
      through; what it receives is the changes derived from the unused declarations. */
  lemma CommitReachedIff(args: seq<string>, env: Environment)
    ensures Execute(args, env).commit.Some? <==>
      && Proceeds(args, env)
      && CargoAnswers(args, env)
      && env.parse(args).options.apply
      && GateFor(args, env).Commit?
    ensures Execute(args, env).commit.Some? ==> Execute(args, env).commit.value == ChangesFor(args, env)
  {
  }

  /** A refused apply is reported but is not an error: `execute` still returns `Ok(())`. */
  lemma RefusedApplyReturnsOk(args: seq<string>, env: Environment)
    requires Proceeds(args, env) && CargoAnswers(args, env)
    requires env.parse(args).options.apply && !GateFor(args, env).Commit?
    ensures Execute(args, env) == Execution(None, Return(Ok(())))
  {
  }

  /** Without `--apply` nothing is ever written, whatever the collaborators answer. */
  lemma PreviewNeverCommits(args: seq<string>, env: Environment)
    requires env.parse(args).Parsed? && !env.parse(args).options.apply
    ensures Execute(args, env).commit.None? && Execute(args, env).termination.Return?
  {
  }

  /** Configuration errors are decided before cargo, git or the file system is touched:
      two environments that parse alike give the same execution when the options are
      rejected or only help is asked for. */
  lemma RejectedOptionsIgnoreCollaborators(args: seq<string>, env: Environment, other: Environment)
    requires env.parse(args) == other.parse(args)
    requires !Proceeds(args, env)
    ensures Execute(args, env) == Execute(args, other)
  {
  }
}
