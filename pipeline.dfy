/**
 * The order of work in the simplex driver, as specification functions:
 * which steps solveSimplex and runSimplexSolver perform for given
 * options, and which status they return. The engine calls themselves
 * (dual simplex, crash, matrix and factor set-up, the LP transforms) are
 * uninterpreted: each is a Step, and the transpose also swaps the solver
 * LP's row and column counts (SolverLp).
 */
module Pipeline {
  import opened Wrappers
  import SC = SimplexConst
  import HS = HighsStatusConst
  import opened StatusTranslation

  /** Dimensions of an LP; the matrix, bounds and costs are not modelled. */
  datatype HighsLp = HighsLp(numCol: nat, numRow: nat)

  /** Transposing swaps the roles of rows and columns. */
  function Transposed(lp: HighsLp): HighsLp
  {
    HighsLp(lp.numRow, lp.numCol)
  }

  /** The options the driver reads, directly or through simplex_info_. */
  datatype HighsOptions = HighsOptions(
    scip: bool,
    cleanUp: bool,
    crashStrategy: SC.SimplexCrashStrategy,
    simplexStrategy: SC.SimplexStrategy,
    transposeSolverLp: bool,
    scaleSolverLp: bool,
    permuteSolverLp: bool,
    tightenSolverLp: bool)

  /** The part of simplex_info_ the driver reads or the engine writes. */
  datatype SimplexInfo = SimplexInfo(
    solutionStatus: SC.SimplexSolutionStatus,
    crashStrategy: SC.SimplexCrashStrategy,
    simplexStrategy: SC.SimplexStrategy,
    transposeSolverLp: bool,
    scaleSolverLp: bool,
    permuteSolverLp: bool,
    tightenSolverLp: bool)

  /** simplex_info_ after the options step: settings from opt, status kept. */
  function InfoFromOptions(opt: HighsOptions, status: SC.SimplexSolutionStatus): SimplexInfo
  {
    SimplexInfo(status, opt.crashStrategy, opt.simplexStrategy, opt.transposeSolverLp,
                opt.scaleSolverLp, opt.permuteSolverLp, opt.tightenSolverLp)
  }

  /**
   * One step of the driver. DualSolve carries the thread-count argument
   * of the engine's solve call (None: solve() called without one);
   * AllocateBasis, MatrixSetup and FactorSetup carry the sizes they use.
   */
  datatype Step =
    | SolveScip
    | PushHModel
    | CopyLp
    | SetSimplexOptions
    | Transpose
    | InitRandomVectors
    | AllocateBasis(basicSize: nat, totalSize: nat)
    | InitUnitScaling
    | Scale
    | Permute
    | Tighten
    | InitLogicalBasis
    | MatrixSetup(numCol: nat, numRow: nat)
    | FactorSetup(numCol: nat, numRow: nat, basicSize: nat)
    | DualSetup
    | InitFromNonbasic
    | Crash
    | DualSolve(threads: Option<int>)

  /** The serial path's thread switches, hard-wired off in the driver. */
  const FourThreads: bool := false
  const EightThreads: bool := false

  /** Thread argument of the serial path's solve call. */
  function SerialThreads(): Option<int>
  {
    if FourThreads then Some(4) else if EightThreads then Some(8) else None
  }

  /**
   * Thread argument of the solve call outside the clean-up path: both
   * parallel strategies ask for 8 threads, every other strategy calls
   * solve() without an argument.
   */
  function SolverThreads(strategy: SC.SimplexStrategy): (r: Option<int>)
    ensures SC.IsParallel(strategy) <==> r == Some(8)
    ensures !SC.IsParallel(strategy) <==> r == None
  {
    if strategy == SC.DualTasks then Some(8)
    else if strategy == SC.DualMulti then Some(8)
    else SerialThreads()
  }

  /** A step that runs exactly when its flag is set. */
  function Gated(flag: bool, s: Step): seq<Step>
  {
    if flag then [s] else []
  }

  /** Steps of solveSimplex. */
  function SolveSteps(cleanUp: bool, crash: SC.SimplexCrashStrategy, strategy: SC.SimplexStrategy): seq<Step>
  {
    [DualSetup] +
    if cleanUp then [InitFromNonbasic, DualSolve(None)]
    else Gated(crash != SC.Off, Crash) + [DualSolve(SolverThreads(strategy))]
  }

  /**
   * Status returned by solveSimplex when the engine reported
   * engineStatus. The clean-up and serial paths return the translated
   * engine status; the two parallel paths fall through to Optimal
   * whatever the engine reported.
   */
  function SolveOutcome(cleanUp: bool, strategy: SC.SimplexStrategy,
                        engineStatus: SC.SimplexSolutionStatus): (r: HS.HighsStatus)
    ensures cleanUp || !SC.IsParallel(strategy) ==> r == LpStatusToHighsStatus(engineStatus)
    ensures !cleanUp && SC.IsParallel(strategy) ==> r == HS.Optimal
    ensures r == HS.Optimal <==> (!cleanUp && SC.IsParallel(strategy)) || engineStatus == SC.Optimal
    ensures r != HS.OK
  {
    if cleanUp then LpStatusToHighsStatus(engineStatus)
    else if strategy == SC.DualTasks || strategy == SC.DualMulti then HS.Optimal
    else
      var result := LpStatusToHighsStatus(engineStatus);
      if result != HS.Optimal then result else HS.Optimal
  }

  /** The LP handed to matrix and factor set-up. */
  function SolverLp(opt: HighsOptions, lp: HighsLp): HighsLp
  {
    if opt.transposeSolverLp then Transposed(lp) else lp
  }

  /** Steps before the basis is allocated: the LP copy, options, optional transpose. */
  function PrepareSteps(opt: HighsOptions): seq<Step>
  {
    [PushHModel, CopyLp, SetSimplexOptions] + Gated(opt.transposeSolverLp, Transpose)
  }

  /** Random vectors, then the basis allocated with the original LP's sizes, then unit scaling. */
  function AllocateSteps(lp: HighsLp): seq<Step>
  {
    [InitRandomVectors, AllocateBasis(lp.numRow, lp.numCol + lp.numRow), InitUnitScaling]
  }

  /** The optional transforms of the solver LP, in their fixed order. */
  function TransformSteps(opt: HighsOptions): seq<Step>
  {
    Gated(opt.scaleSolverLp, Scale) + Gated(opt.permuteSolverLp, Permute) + Gated(opt.tightenSolverLp, Tighten)
  }

  /** Logical basis, then matrix and factor set-up over the solver LP's sizes. */
  function EngineSetupSteps(opt: HighsOptions, lp: HighsLp): seq<Step>
  {
    var solverLp := SolverLp(opt, lp);
    [InitLogicalBasis,
     MatrixSetup(solverLp.numCol, solverLp.numRow),
     FactorSetup(solverLp.numCol, solverLp.numRow, lp.numRow)]
  }

  /** Set-up steps of runSimplexSolver before solveSimplex. */
  function SetupSteps(opt: HighsOptions, lp: HighsLp): seq<Step>
  {
    PrepareSteps(opt) + AllocateSteps(lp) + TransformSteps(opt) + EngineSetupSteps(opt, lp)
  }

  /** All steps of runSimplexSolver. */
  function RunSteps(opt: HighsOptions, lp: HighsLp): seq<Step>
  {
    if opt.scip then [SolveScip]
    else SetupSteps(opt, lp) + SolveSteps(opt.cleanUp, opt.crashStrategy, opt.simplexStrategy)
  }

  /** Status returned by runSimplexSolver; solveScip always returns OK. */
  function RunOutcome(opt: HighsOptions, engineStatus: SC.SimplexSolutionStatus): (r: HS.HighsStatus)
    ensures opt.scip <==> r == HS.OK
    ensures r == HS.Optimal <==>
              !opt.scip && ((!opt.cleanUp && SC.IsParallel(opt.simplexStrategy)) || engineStatus == SC.Optimal)
  {
    if opt.scip then HS.OK else SolveOutcome(opt.cleanUp, opt.simplexStrategy, engineStatus)
  }

  /** Whether runSimplexSolver writes the solution and basis back. */
  predicate WritesBack(opt: HighsOptions, engineStatus: SC.SimplexSolutionStatus)
  {
    !opt.scip && RunOutcome(opt, engineStatus) == HS.Optimal
  }
}
