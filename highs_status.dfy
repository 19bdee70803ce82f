/** The public status returned by the HiGHS solve entry points. */
module HighsStatusConst {

  /** The values of HighsStatus that the simplex driver can return. */
  datatype HighsStatus =
    | OK
    | Optimal
    | Infeasible
    | Unbounded
    | Timeout
    | ReachedDualObjectiveUpperBound
    | SolutionError
    | NotImplemented
}
