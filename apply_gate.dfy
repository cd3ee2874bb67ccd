/** The safety gate in front of `--apply`: version-control state, checked against the
    three override flags, decides whether the changes are written to disk. */
module ApplyGate {

  /** What the version-control query reports for the workspace root. `Clean` stands for
      every report other than the three the gate singles out. */
  datatype VcsStatus =
    | Error(message: string)
    | NoVCS
    | Unclean(dirty: seq<string>, staged: seq<string>)
    | Clean

  /** The gate's verdict: the three refusals, each with what it reports, or commit. */
  datatype Gate =
    | GitProblem(message: string)
    | NoVcsRefused
    | UncleanRefused(dirty: seq<string>, staged: seq<string>)
    | Commit

  /** The arms are tried in order, as in the source: a query error always refuses; a missing
      repository refuses unless `--allow-no-vcs`; an unclean tree refuses when it has dirty
      files without `--allow-dirty` or staged files without `--allow-staged`; anything
      else commits. */
  function Decide(status: VcsStatus, allowNoVcs: bool, allowDirty: bool, allowStaged: bool): (g: Gate)
    // commit only if every violated precondition has its override
    ensures g.Commit? <==>
      && !status.Error?
      && (status.NoVCS? ==> allowNoVcs)
      && (status.Unclean? ==> (status.dirty == [] || allowDirty) && (status.staged == [] || allowStaged))
    ensures g.GitProblem? <==> status.Error?
    ensures g.GitProblem? ==> g.message == status.message
    ensures g.NoVcsRefused? <==> status.NoVCS? && !allowNoVcs
    // a refused unclean tree lists all its dirty and all its staged files
    ensures g.UncleanRefused? ==> status.Unclean? && g.dirty == status.dirty && g.staged == status.staged
  {
    match status
    case Error(e) => GitProblem(e)
    case NoVCS =>
      if !allowNoVcs then NoVcsRefused else Commit
    case Unclean(dirty, staged) =>
      if !(dirty == [] || allowDirty) || !(staged == [] || allowStaged) then UncleanRefused(dirty, staged)
      else Commit
    case Clean => Commit
  }

  /** Setting more overrides never turns a commit into a refusal. */
  lemma OverridesOnlyWiden(status: VcsStatus, n: bool, d: bool, s: bool, n': bool, d': bool, s': bool)
    requires (n ==> n') && (d ==> d') && (s ==> s')
    ensures Decide(status, n, d, s).Commit? ==> Decide(status, n', d', s').Commit?
  {
  }

  /** Each override suppresses only its own precondition: `--allow-dirty` cannot
      excuse staged files or a missing repository, and so on for the other two. */
  lemma EachOverrideIsIndependent(dirty: seq<string>, staged: seq<string>, n: bool, d: bool, s: bool)
    ensures dirty != [] && !d ==> !Decide(Unclean(dirty, staged), n, d, s).Commit?
    ensures staged != [] && !s ==> !Decide(Unclean(dirty, staged), n, d, s).Commit?
    ensures !n ==> !Decide(NoVCS, n, d, s).Commit?
    ensures Decide(NoVCS, true, d, s).Commit?
    ensures Decide(Unclean(dirty, []), n, true, s).Commit?
    ensures Decide(Unclean([], staged), n, d, true).Commit?
  {
  }

  /** A dirty tree with no overrides is refused, and `--allow-dirty` alone lets it through
      when nothing is staged. */
  lemma DirtyTreeNeedsAllowDirty(dirty: seq<string>)
    requires dirty != []
    ensures Decide(Unclean(dirty, []), false, false, false) == UncleanRefused(dirty, [])
    ensures Decide(Unclean(dirty, []), false, true, false) == Commit
  {
  }
}
