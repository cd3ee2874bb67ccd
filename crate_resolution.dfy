/** Which packages of the cargo project the minifier runs on, decided from the
    `--package`, `--workspace` and `--exclude` options. */
module CrateResolution {
  import opened Errors
  import opened Options

  datatype CrateResolutionOptions =
    | Root                                // the package at the manifest path only
    | Workspace(exclude: seq<string>)     // every workspace member except these
    | Package(packages: seq<string>)      // exactly the named packages

  const PackageConflictMessage: string :=
    "either specify --workspace and optionally --exclude specific targets, or specify specific targets with --package"
  const ExcludeWithoutWorkspaceMessage: string :=
    "--exclude can only be used in conjunction with --workspace"

  /** The decision table over (workspace, packages given, excludes given). Every one of
      the eight rows is covered, so the function is total; its contract gives the
      accepted combinations and the scope each one selects in closed form. */
  function FromOptions(opts: MinifyOptions): (r: Result<CrateResolutionOptions>)
    // accepted exactly when packages stand alone, or excludes come with --workspace
    ensures r.Ok? <==>
      (if opts.package != [] then !opts.workspace && opts.exclude == []
       else opts.exclude != [] ==> opts.workspace)
    ensures r == Ok(Root) <==> !opts.workspace && opts.package == [] && opts.exclude == []
    ensures (r.Ok? && r.value.Workspace?) <==> opts.workspace && opts.package == []
    ensures (r.Ok? && r.value.Package?) <==>
      !opts.workspace && opts.package != [] && opts.exclude == []
    ensures r.Ok? && r.value.Workspace? ==> r.value.exclude == opts.exclude
    ensures r.Ok? && r.value.Package? ==> r.value.packages == opts.package && r.value.packages != []
    // packages with --workspace or --exclude is one error, a bare --exclude another
    ensures r.Err? ==> r.error == Args(
      if opts.package != [] then PackageConflictMessage else ExcludeWithoutWorkspaceMessage)
  {
    match (opts.workspace, opts.package != [], opts.exclude != [])
    case (true, false, true) | (true, false, false) => Ok(Workspace(opts.exclude))
    case (false, true, false) => Ok(Package(opts.package))
    case (false, false, false) => Ok(Root)
    case (true, true, false) | (false, true, true) | (true, true, true) =>
      Err(Args(PackageConflictMessage))
    case (false, false, true) => Err(Args(ExcludeWithoutWorkspaceMessage))
  }

  /** The options a user would give to select `scope`, keeping every other option of `opts`. */
  function WithScope(opts: MinifyOptions, scope: CrateResolutionOptions): MinifyOptions {
    match scope
    case Root => opts.(workspace := false, package := [], exclude := [])
    case Workspace(ex) => opts.(workspace := true, package := [], exclude := ex)
    case Package(ps) => opts.(workspace := false, package := ps, exclude := [])
  }

  /** Every scope can be asked for (a package scope needs at least one package), and
      asking for it yields exactly that scope: resolution is onto and loses nothing. */
  lemma EveryScopeIsReachable(opts: MinifyOptions, scope: CrateResolutionOptions)
    requires scope.Package? ==> scope.packages != []
    ensures FromOptions(WithScope(opts, scope)) == Ok(scope)
  {
  }

  /** The scope depends on the three scope options only. */
  lemma OnlyScopeOptionsMatter(a: MinifyOptions, b: MinifyOptions)
    requires a.workspace == b.workspace && a.package == b.package && a.exclude == b.exclude
    ensures FromOptions(a) == FromOptions(b)
  {
  }
}
