/** The parsed command line of `cargo minify`: one field per option the tool accepts. */
module Options {
  import opened Errors

  /** The kinds of unused declaration that `--kinds` can select. */
  datatype UnusedDiagnosticKind =
    | Function | Const | Static | Struct | Enum | Union | TypeAlias
    | AssociatedFunction | MacroDefinition

  /** `--color`: colour the diff always, never, or only on a terminal. */
  datatype ColorMode = Auto | Always | Never

  datatype MinifyOptions = MinifyOptions(
    quiet: bool,
    package: seq<string>,
    workspace: bool,
    exclude: seq<string>,
    file: seq<string>,
    ignore: seq<string>,
    kinds: seq<UnusedDiagnosticKind>,
    apply: bool,
    help: bool,
    color: ColorMode,
    manifestPath: Option<string>,
    allowDirty: bool,
    allowStaged: bool,
    allowNoVcs: bool)
}
