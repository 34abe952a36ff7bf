/** The command-line boundary: why a run is refused, and how the process ends. */
module Cli {
  import opened Wrappers
  import opened Batch

  /** The `sys.exit('Error: ...')` messages of the argument checks. */
  datatype ValidationError =
    | InputMissing(path: string)
    | NotFastaFile(path: string)
    | NoFastaFiles(path: string)
    | InputNotFile(path: string)
    | OutdirMissing(path: string)
    | OutdirNotDirectory(path: string)
    | MethodPathMissing(path: string)
    | MethodPathNotFile(path: string)
    | InvalidSpecies(species: string)

  /** The result of the argument checks: go on, the `list_sp` exit, or an error exit. */
  datatype Verdict = Proceed | ListSpecies | Exit(error: ValidationError)

  /**
   * How a whole invocation ends: the results are written, the species list
   * was printed (exit 0), the arguments were refused (exit 1), or an
   * exception escaped a runner (traceback, exit 1).
   */
  datatype Status = Done | ListedSpecies | Rejected(reason: ValidationError) | Crashed(error: RunError)

  /** Python truthiness of the optional `--method_path`: absent and empty both count as not given. */
  predicate Given(methodPath: Option<string>) {
    methodPath.Some? && methodPath.value != ""
  }

  /** The status of an invocation whose checks did not let it proceed. */
  function Refusal(v: Verdict): Status
    requires !v.Proceed?
  {
    if v.ListSpecies? then ListedSpecies else Rejected(v.error)
  }

  /** The status a runner's outcome gives the process. */
  function Finish(outcome: Outcome): Status {
    if outcome.Completed? then Done else Crashed(outcome.error)
  }
}
