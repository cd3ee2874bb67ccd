# cargo-minify: the option and safety layer, in Dafny

`cargo minify` removes the declarations that the Rust compiler reports as unused. Around
its text-surgery engine sits a small decision layer in `src/lib.rs`, which this project
models and proves things about:

- **Crate scope** (`CrateResolution`): `--workspace`, `--package` and `--exclude` select
  the root package, the named packages, or the workspace minus exclusions. The other
  combinations are argument errors, with one of two messages.
- **File scope** (`FileResolution`): `--file` (allow-list) and `--ignore` (deny-list)
  exclude each other. A file is in scope under `Only` when some pattern matches it, and
  under `AllBut` when none does. Glob matching is an external library. It appears as a
  parameter `glob(pattern, fileName)` about which nothing is assumed.
- **Apply gate** (`ApplyGate`): with `--apply`, the version-control status and the
  overrides `--allow-no-vcs`, `--allow-dirty` and `--allow-staged` decide whether the
  changes are written.
- **`execute`** (`Pipeline`): the order of the steps and where each can stop. Every
  collaborator that runs cargo or git or touches files is a field of `Environment`:
  the option parser, the unused-declaration collector, the diagnostic processor, the
  workspace-root query, the version-control query and the committer. The model is a
  function of the arguments and of those collaborators' answers.
- **`run`** (`EntryPoint`): dropping the program name and the `minify` subcommand name
  that cargo inserts, through a peekable iterator. Then the mapping from `execute`'s
  result to the process exit status.

Files: `errors.dfy` (the error type, `Result` and `Option`), `options.dfy` (the parsed options),
`crate_resolution.dfy`, `file_resolution.dfy`, `apply_gate.dfy`, `pipeline.dfy` and
`entry_point.dfy`.

Behaviours of `src/lib.rs` worth knowing:

- A refused unclean tree lists every dirty and every staged file, even the category
  whose override was given (src/lib.rs:150-160). It does not list only the offending ones.
- Every version-control status other than an error, a missing repository and an unclean
  tree commits (the `_` arm, src/lib.rs:166). The model names that case `Clean`.
- The file-scope conflict message is kept word for word, although it reads as cut off.
- `--help` is answered only after both scopes are resolved. So `--help` with
  conflicting options still returns the argument error (src/lib.rs:111-115).

## Model

| member | source | states |
|---|---|---|
| `CrateResolution.FromOptions` | src/lib.rs:186-207 | Total over the eight flag combinations. It is accepted exactly when packages come without `--workspace` and `--exclude`, or when excludes come with `--workspace`. `Root` iff no flag is set. `Workspace` iff `--workspace` without packages, carrying the exclude list. `Package` iff only packages, carrying them. Errors are `Args` with the package-conflict message when packages were given, and otherwise the exclude-without-workspace message. |
| `CrateResolution.EveryScopeIsReachable` | src/lib.rs:179-207 | Every scope (a package scope with at least one package) has options that resolve to exactly that scope. |
| `CrateResolution.OnlyScopeOptionsMatter` | src/lib.rs:187-191 | The crate scope depends on `workspace`, `package` and `exclude` only. |
| `FileResolution.FromOptions` | src/lib.rs:216-224 | An `Args` error with the conflict message iff both `--file` and `--ignore` are non-empty. `Only(file)` iff only files are given. Otherwise `AllBut(ignore)`, also when both are empty. |
| `FileResolution.AnyMatches` | src/lib.rs:228-230 | `iter().any`: true iff some pattern in the list matches the file name. |
| `FileResolution.NoneMatches` | src/lib.rs:231-233 | `iter().all` of non-matching: true iff no pattern in the list matches the file name. |
| `FileResolution.IsIncluded` | src/lib.rs:226-235 | Under `Only(ps)` a file is included iff some `p` in `ps` matches it. Under `AllBut(ps)` it is included iff no `p` in `ps` matches it. |
| `FileResolution.OnlyAndAllButAreComplementary` | src/lib.rs:226-235 | The same list used as an allow-list and as a deny-list includes complementary sets of files. |
| `FileResolution.EmptyPatternLists` | src/lib.rs:228-233 | An empty `Only` includes no file. An empty `AllBut` includes every file. |
| `FileResolution.NoFileOptionsIncludeEverything` | src/lib.rs:216-218 | With neither `--file` nor `--ignore`, resolution succeeds and every file is in scope. |
| `FileResolution.ResolvedFilterFollowsOptions` | src/lib.rs:216-235 | For accepted options, a file is in scope iff it matches a `--file` pattern (when files are given), or else iff it matches no `--ignore` pattern. |
| `FileResolution.MorePatternsMonotone` | src/lib.rs:228-233 | Adding a pattern never shrinks an allow-list's scope and never grows a deny-list's scope. |
| `ApplyGate.Decide` | src/lib.rs:137-170 | Commit iff the status is not an error, a missing repository has `--allow-no-vcs`, and an unclean tree has no dirty files or `--allow-dirty`, and no staged files or `--allow-staged`. A git problem iff the status is an error, carrying its message. The no-VCS refusal iff no repository and no override. An unclean refusal reports the tree's full dirty and staged lists. |
| `ApplyGate.OverridesOnlyWiden` | src/lib.rs:143-152 | Setting more override flags never turns a commit into a refusal. |
| `ApplyGate.EachOverrideIsIndependent` | src/lib.rs:143-152 | Dirty files without `--allow-dirty`, staged files without `--allow-staged`, or no repository without `--allow-no-vcs` each refuse, whatever the other flags are. Each override alone lifts its own refusal. |
| `ApplyGate.DirtyTreeNeedsAllowDirty` | src/lib.rs:150-165 | A dirty tree with no overrides is refused with its dirty files listed. `--allow-dirty` alone lets it through when nothing is staged. |
| `Pipeline.Execute` | src/lib.rs:108-177 | A parser rejection returns a `CommandLine` error. A crate-scope or file-scope error is returned as is, in that order. `--help` with accepted options returns `Ok(())`. An error from collecting the unused declarations or from the workspace-root query is returned as is. Once both cargo queries succeed, the run returns `Ok(())` (preview, refusal or successful write) or panics. It panics iff the write was reached and failed, with that write's error. Writing happens only with `--apply`, accepted options and no `--help`. A run that returns an error wrote nothing. |
| `Pipeline.CommitReachedIff` | src/lib.rs:117-170 | `commit_changes` is reached iff the options are accepted, help is not asked for, both cargo queries succeed, `--apply` is set and the gate commits. It receives exactly the changes derived from the unused declarations. |
| `Pipeline.RefusedApplyReturnsOk` | src/lib.rs:137-176 | When the gate refuses, `execute` writes nothing and returns `Ok(())`. |
| `Pipeline.PreviewNeverCommits` | src/lib.rs:137-173 | Without `--apply` nothing is written and nothing panics, whatever the collaborators answer. |
| `Pipeline.RejectedOptionsIgnoreCollaborators` | src/lib.rs:109-116 | When the options are rejected or only help is asked for, the execution does not depend on cargo, git or the file system. |
| `EntryPoint.ExitCode` | src/lib.rs:81-101 | Success and only success gives 0. `Args` and `CommandLine` errors give 1, `Utf8` gives 2, `Io` gives 3. Codes are within 0..3. |
| `EntryPoint.ExecuteArgs` | src/lib.rs:67-74 | The arguments passed on are a suffix of the process arguments, in order. Nothing is dropped from an empty list. Two are dropped when the second is `minify`, and otherwise one. |
| `EntryPoint.CollectExecuteArgs` | src/lib.rs:69-81 | The peekable-iterator steps and the `collect` loop produce exactly `ExecuteArgs(argv)`. |
| `EntryPoint.Run` | src/lib.rs:66-105 | In the model, the process panics iff `execute` panics (printing and flushing are not modelled). Otherwise it exits with `ExitCode` of what `execute` returned on the stripped arguments. |
| `EntryPoint.CargoInvocationIsTransparent` | src/lib.rs:67-74 | `cargo minify ARGS` and `cargo-minify ARGS` pass the same arguments to `execute`, and so execute identically, unless ARGS begins with `minify`. |
| `EntryPoint.OnlyOneSubcommandNameIsDropped` | src/lib.rs:72-74 | Only one `minify` is dropped: a second one reaches `execute`. |
| `EntryPoint.ExitCodeSeparatesCategories` | src/lib.rs:81-101 | Argument, encoding and I/O errors never share an exit code with each other or with success. |
| `EntryPoint.RefusedApplyExitsZero` | src/lib.rs:137-176 | A refused `--apply` (git problem, no repository, dirty or staged files) ends with status 0. |
| `EntryPoint.ConflictingOptionsExitOne` | src/lib.rs:81-112 | Conflicting scope options end with status 1 and nothing written. |

## Left out

- Glob semantics: the `glob_match` library is a parameter with no properties assumed. Case sensitivity, `*`, `?` and `**` are not modelled.
- Option parsing and the usage text (the `gumdrop` crate) are the parameter `Environment.parse`. A parser rejection is assumed to become `Error::CommandLine`, because `src/error.rs` is not part of this model.
- `src/error.rs` is not part of this model. `Error` has the four variants that `src/lib.rs` matches on, each with its payload as message text.
- The unused-declaration collector, the diagnostic processor (text surgery), cargo metadata, the version-control query and the committer are not part of this model. Their source is not in `src/lib.rs`, and they run cargo and git and write files. They appear only as the answers they give, the fields of `Environment`. `UnusedItem` and `Change` are shapes only.
- Printing to stdout and stderr is not modelled: the diff output, the "no unused code" and "run with --apply" notes, the refusal messages, `--quiet` and `--color`. The flush of stdout and `std::process::exit` are not modelled either, nor the panics that a failed print or the `unwrap` of the flush can raise (src/lib.rs:103). In the model a panic comes only from a failed commit. What a refusal lists is kept in the `Gate` value.
- The status of a panicking process (Rust's runtime exits with 101) is not modelled. A failing commit is the `Panicked` exit.
- The integration test (`tests/integration_test.rs`) runs rustfmt and cargo on golden files. It has no logic of its own to model.
- A change in the working tree between the version-control check and the writes is outside the model: the model takes the check and the writes as one step.
