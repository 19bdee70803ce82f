/**
 * The enumerations of the simplex solver that the top-level driver
 * switches on: the status the dual simplex engine reports, the solve
 * strategy and the crash strategy.
 */
module SimplexConst {

  /**
   * Status written by the dual simplex engine into simplex_info_.
   * The seven named values are the ones the driver's translation names;
   * every other value of the C++ enumeration is represented by
   * UnlistedStatus, distinguished by its integer code.
   */
  datatype SimplexSolutionStatus =
    | Optimal
    | Infeasible
    | Unbounded
    | Singular
    | Failed
    | ReachedDualObjectiveValueUpperBound
    | OutOfTime
    | UnlistedStatus(code: int)

  /**
   * Solve strategy. Only the two parallel strategies are told apart by
   * the driver; every other strategy falls through to the serial path.
   */
  datatype SimplexStrategy =
    | DualTasks
    | DualMulti
    | OtherStrategy(code: int)

  /** Crash strategy: the driver only asks whether it is OFF. */
  datatype SimplexCrashStrategy =
    | Off
    | CrashOn(code: int)

  predicate IsParallel(strategy: SimplexStrategy)
  {
    strategy.DualTasks? || strategy.DualMulti?
  }
}
