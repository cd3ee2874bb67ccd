/** Which source files the minifier may edit, decided from the `--file` (allow-list)
    and `--ignore` (deny-list) options. Glob matching belongs to an external library;
    it is the parameter `glob(pattern, fileName)` and nothing is assumed about it. */
module FileResolution {
  import opened Errors
  import opened Options

  datatype FileResolutionOptions =
    | Only(files: seq<string>)       // include a file when some pattern matches it
    | AllBut(ignored: seq<string>)   // include a file when no pattern matches it

  const FileConflictMessage: string := "either specify --ignore to minify all files except"

  /** Allow-list and deny-list exclude each other; with neither, every file is in scope. */
  function FromOptions(opts: MinifyOptions): (r: Result<FileResolutionOptions>)
    ensures r.Err? <==> opts.file != [] && opts.ignore != []
    ensures r.Err? ==> r.error == Args(FileConflictMessage)
    ensures (r.Ok? && r.value.Only?) <==> opts.file != [] && opts.ignore == []
    ensures r.Ok? && r.value.Only? ==> r.value.files == opts.file
    ensures r.Ok? && r.value.AllBut? ==> r.value.ignored == opts.ignore
  {
    match (opts.file != [], opts.ignore != [])
    case (false, false) | (false, true) => Ok(AllBut(opts.ignore))
    case (true, false) => Ok(Only(opts.file))
    case (true, true) => Err(Args(FileConflictMessage))
  }

  /** `patterns.iter().any(|p| glob(p, fileName))`: stops at the first match. */
  function AnyMatches(patterns: seq<string>, fileName: string, glob: (string, string) -> bool): (r: bool)
    ensures r <==> exists i :: 0 <= i < |patterns| && glob(patterns[i], fileName)
  {
    if patterns == [] then false
    else glob(patterns[0], fileName) || AnyMatches(patterns[1..], fileName, glob)
  }

  /** `patterns.iter().all(|p| !glob(p, fileName))`: stops at the first match. */
  function NoneMatches(patterns: seq<string>, fileName: string, glob: (string, string) -> bool): (r: bool)
    ensures r <==> forall i :: 0 <= i < |patterns| ==> !glob(patterns[i], fileName)
  {
    if patterns == [] then true
    else !glob(patterns[0], fileName) && NoneMatches(patterns[1..], fileName, glob)
  }

  function IsIncluded(res: FileResolutionOptions, fileName: string, glob: (string, string) -> bool): (r: bool)
    ensures res.Only? ==> (r <==> exists p :: p in res.files && glob(p, fileName))
    ensures res.AllBut? ==> (r <==> forall p :: p in res.ignored ==> !glob(p, fileName))
  {
    match res
    case Only(files) => AnyMatches(files, fileName, glob)
    case AllBut(ignored) => NoneMatches(ignored, fileName, glob)
  }

  /** The same pattern list as an allow-list and as a deny-list splits the files in two:
      a file is allowed by one exactly when it is not by the other. */
  lemma OnlyAndAllButAreComplementary(patterns: seq<string>, fileName: string, glob: (string, string) -> bool)
    ensures IsIncluded(Only(patterns), fileName, glob) == !IsIncluded(AllBut(patterns), fileName, glob)
  {
  }

  /** An empty allow-list would include nothing; an empty deny-list includes everything. */
  lemma EmptyPatternLists(fileName: string, glob: (string, string) -> bool)
    ensures !IsIncluded(Only([]), fileName, glob)
    ensures IsIncluded(AllBut([]), fileName, glob)
  {
  }

  /** With neither `--file` nor `--ignore`, every file is in scope. The first resolution
      that includes nothing, `Only([])`, cannot come out of the options. */
  lemma NoFileOptionsIncludeEverything(opts: MinifyOptions, fileName: string, glob: (string, string) -> bool)
    requires opts.file == [] && opts.ignore == []
    ensures FromOptions(opts).Ok? && IsIncluded(FromOptions(opts).value, fileName, glob)
  {
  }

  /** Every resolution that the options produce for an accepted combination is one of the
      two lists the user wrote, so a file is in scope exactly as that list says. */
  lemma ResolvedFilterFollowsOptions(opts: MinifyOptions, fileName: string, glob: (string, string) -> bool)
    requires FromOptions(opts).Ok?
    ensures IsIncluded(FromOptions(opts).value, fileName, glob) <==>
      if opts.file != [] then exists p :: p in opts.file && glob(p, fileName)
      else forall p :: p in opts.ignore ==> !glob(p, fileName)
  {
  }

  /** Adding a pattern never removes a file from an allow-list's scope and never adds a
      file to a deny-list's scope. */
  lemma MorePatternsMonotone(patterns: seq<string>, extra: string, fileName: string, glob: (string, string) -> bool)
    ensures IsIncluded(Only(patterns), fileName, glob) ==> IsIncluded(Only(patterns + [extra]), fileName, glob)
    ensures IsIncluded(AllBut(patterns + [extra]), fileName, glob) ==> IsIncluded(AllBut(patterns), fileName, glob)
  {
  }
}
