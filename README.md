# HiGHS simplex driver (HApp.h) in Dafny

This project models the top-level driver of the HiGHS simplex solver:

- the translation of the dual simplex engine's solution status into the public `HighsStatus`;
- `solveSimplex`, which chooses between the clean-up path, an optional crash and the task, multi and serial solve strategies, and decides which status is returned;
- `runSimplexSolver`, which copies the LP into the solver LP, runs the optional transforms in a fixed order, allocates the basis arrays, sets up the matrix and factor, solves, and writes the solution and basis back only on an `Optimal` result.

The numerical engine is uninterpreted. This covers the dual simplex, crash, factor and matrix set-up, and the scale, permute, tighten and transpose transforms. Each engine call is a `Step` in the trace, plus the effects on the model object listed below. The status that the dual simplex reports is a parameter, `engineStatus`, so every property holds for every status the engine could report.

Modules:

- `SimplexConst`, `HighsStatusConst`: the enumerations the driver switches on. Engine statuses that the switch does not name are `UnlistedStatus(code)`. Strategies other than DUAL_TASKS and DUAL_MULTI are `OtherStrategy(code)`. A crash strategy other than OFF is `CrashOn(code)`.
- `StatusTranslation`: `LpStatusToHighsStatus`, a description of the same map from the public side, a partial inverse, and lemmas about the map.
- `Pipeline`: the specification functions. `SolveSteps` and `SolveOutcome` give the steps and the result of `solveSimplex`. `SetupSteps`, `RunSteps` and `RunOutcome` give them for `runSimplexSolver`.
- `PipelineProperties`: lemmas about those functions. They cover ordering, gating, a single solve call, crash before solve, sizes and returned status.
- `HApp`: the class `HighsModelObject`. Its fields are the original LP, the solver LP, the HModel count, `simplex_info_`, the basis arrays `basicIndex`, `nonbasicFlag` and `nonbasicMove`, the trace, and the write-back state. Its methods carry out the driver's steps in order.
  - `SolveSimplex`, `RunSimplexSolver` and the set-up methods are proved to produce exactly the traces and results given by the `Pipeline` functions.
  - `AllocateBasis` is proved against `Resized` and `Filled`, the models of `std::vector`'s `resize` and `assign`.
  - The engine calls are modelled by their effects:
    - the transpose step swaps the solver LP's row and column counts;
    - `DualSolverSolve` records the solve step and stores the reported status in `simplex_info_`; the basis arrays keep their lengths, and their contents become arbitrary;
    - `EngineRewritesBasis` records no step; it stands for the basis writes of `initWithLogicalBasis`, `initFromNonbasic` and crash, and leaves the basis arrays with their lengths kept and their contents arbitrary;
    - `SolveScipStep` records the solveScip step and returns OK; it leaves the solver LP, `simplex_info_` and the basis arrays, lengths included, arbitrary.
  - That the engine keeps the basis arrays' lengths is an assumption of the model (see "## Left out").

Both parallel branches of `solveSimplex` ignore the engine's status and return `Optimal` (src/simplex/HApp.h:91-100 falls through to line 154). The model proves exactly that.

## Model

| member | source | states |
|---|---|---|
| StatusTranslation.LpStatusToHighsStatus | src/simplex/HApp.h:39-58 | each public status is produced by exactly the engine statuses the switch sends to it: Optimal iff OPTIMAL, Infeasible iff INFEASIBLE, Unbounded iff UNBOUNDED, Timeout iff OUT_OF_TIME, ReachedDualObjectiveUpperBound iff REACHED_DUAL_OBJECTIVE_VALUE_UPPER_BOUND, SolutionError iff FAILED or SINGULAR, NotImplemented iff the status is one the switch does not name; OK is never produced |
| StatusTranslation.TranslationMatchesReportedAs | src/simplex/HApp.h:39-58 | the switch agrees with an independent, public-side description of which engine statuses each public status stands for, on every pair (both directions) |
| StatusTranslation.EngineStatusOf | src/simplex/HApp.h:41-54 | partial inverse: whatever engine status it recovers from a public status is one with its own public status, and it translates back to that public status |
| StatusTranslation.DistinguishedRoundTrip | src/simplex/HApp.h:41-54 | an engine status is recovered from its translation if and only if it is not FAILED, SINGULAR or unnamed |
| StatusTranslation.TranslationNotInjective | src/simplex/HApp.h:45-48 | FAILED and SINGULAR are different statuses with the same translation, SolutionError |
| StatusTranslation.TranslationImage | src/simplex/HApp.h:39-58 | the public statuses that can come out of the translation are exactly those other than OK |
| Pipeline.SolverThreads | src/simplex/HApp.h:91-121 | outside clean-up, the solve call asks for 8 threads exactly when the strategy is DUAL_TASKS or DUAL_MULTI; otherwise it passes no thread argument, because FourThreads and EightThreads are hard-wired false |
| Pipeline.SolveOutcome | src/simplex/HApp.h:60-155 | the clean-up and serial paths return the translated engine status; the parallel paths return Optimal; the result is Optimal iff a parallel path ran or the engine reported OPTIMAL; it is never OK |
| Pipeline.RunOutcome | src/simplex/HApp.h:339-442 | runSimplexSolver returns OK exactly on the scip branch, and Optimal exactly when the scip branch is not taken and either a parallel path ran or the engine reported OPTIMAL |
| PipelineProperties.SolveStepsInOrder | src/simplex/HApp.h:73-121 | solveSimplex's steps follow the fixed order: dual set-up, then initFromNonbasic or crash, then the solve call, and no step is repeated |
| PipelineProperties.SetupStepsInOrder | src/simplex/HApp.h:348-417 | the set-up steps follow the fixed order with no repeats: new HModel, LP copy, options, transpose, random vectors, basis allocation, unit scaling, scale, permute, tighten, logical basis, matrix set-up, factor set-up |
| PipelineProperties.RunStepsInOrder | src/simplex/HApp.h:339-426 | the whole trace of runSimplexSolver is strictly increasing in the fixed step order, so no kind of step happens twice and none happens out of order |
| PipelineProperties.ScipShortCircuits | src/simplex/HApp.h:342 | with opt.scip set, solveScip is the only step and OK is returned, before any set-up |
| PipelineProperties.TransformsGatedByFlags | src/simplex/HApp.h:374-401 | transpose, scale, permute and tighten each run exactly when their own flag is set |
| PipelineProperties.PrepareMembership | src/simplex/HApp.h:348-374 | a step of the LP preparation kind is in the whole trace iff it is in the preparation piece |
| PipelineProperties.TransformMembership | src/simplex/HApp.h:391-401 | a transform step is in the whole trace iff it is in the transform piece |
| PipelineProperties.SolveMembership | src/simplex/HApp.h:426 | a solve-phase step is in the whole trace iff it is in solveSimplex's piece |
| PipelineProperties.MandatoryStepsRun | src/simplex/HApp.h:348-417 | outside the scip branch, the HModel push, LP copy, options, random vectors, unit scaling, logical basis and dual set-up always run |
| PipelineProperties.CrashGatedAndBeforeSolve | src/simplex/HApp.h:77-87 | crash runs iff neither scip nor clean-up is set and crash_strategy is not OFF, and every crash step comes before every solve call |
| PipelineProperties.SolveIsLast | src/simplex/HApp.h:79-121 | outside the scip branch, the last step is the engine's solve call |
| PipelineProperties.ExactlyOneSolve | src/simplex/HApp.h:77-121 | outside the scip branch, the engine's solve is called exactly once |
| PipelineProperties.CleanUpPath | src/simplex/HApp.h:77-81 | with clean_up set, solveSimplex runs only initFromNonbasic and solve() without a thread argument, skips crash and strategy dispatch, and returns the translated engine status |
| PipelineProperties.DispatchThreads | src/simplex/HApp.h:91-121 | outside clean-up, the trace holds solve(8) for DUAL_TASKS and DUAL_MULTI, and solve() with no thread argument for every other strategy |
| PipelineProperties.AllocationUsesOriginalLp | src/simplex/HApp.h:382-385 | the basis is allocated with the original LP's numRow and numCol + numRow; matrix and factor set-up use the solver LP's dimensions, and the factor gets a basicIndex sized from the original LP |
| PipelineProperties.TransposedFactorSizes | src/simplex/HApp.h:372-417 | after a transpose, the trace holds a factor set-up, and every factor set-up in it has the original column count as its row count and the original row count as its basicIndex size, so the two differ exactly when the original LP is not square |
| PipelineProperties.ParallelPathsReturnOptimal | src/simplex/HApp.h:91-100 | on the DUAL_TASKS and DUAL_MULTI paths runSimplexSolver returns Optimal, whatever status the engine reported |
| PipelineProperties.SerialPathReturnsTranslation | src/simplex/HApp.h:140-145 | on the serial path the result is the translated engine status, so it is Optimal iff the engine reported OPTIMAL |
| HApp.Resized | src/simplex/HApp.h:383-385 | vector resize: the result has the requested length, keeps the old entries that fit and has 0 in every new slot |
| HApp.HighsModelObject.AllocateBasis | src/simplex/HApp.h:380-385 | basicIndex is resized to the original numRow, nonbasicFlag is numCol + numRow zeros, and nonbasicMove is resized to numCol + numRow |
| HApp.HighsModelObject.EngineRewritesBasis | src/simplex/HApp.h:405 | an engine routine that writes the basis through the model's pointer to it (line 357) keeps the three arrays' lengths and leaves their contents unconstrained |
| HApp.HighsModelObject.DualSolverSolve | src/simplex/HApp.h:79 | the engine's solve call is recorded with its thread argument and leaves the reported status in simplex_info_; the basis arrays keep their lengths, with contents unconstrained |
| HApp.HighsModelObject.SolveSimplex | src/simplex/HApp.h:60-155 | performs exactly SolveSteps for the clean-up flag and simplex_info_'s crash and solve strategies, leaves the engine's status in simplex_info_, returns SolveOutcome, and keeps the basis arrays' lengths |
| HApp.HighsModelObject.PrepareSolverLp | src/simplex/HApp.h:348-374 | pushes one HModel, sets the solver LP to the original LP (transposed when the flag is set), and sets simplex_info_ from the options |
| HApp.HighsModelObject.TransformSolverLp | src/simplex/HApp.h:387-401 | appends scale, permute and tighten, in that order, each exactly when its simplex_info_ flag is set |
| HApp.HighsModelObject.SetupEngine | src/simplex/HApp.h:405-417 | appends the logical basis, then matrix set-up and factor set-up with the solver LP's dimensions and the basicIndex size; the logical basis rewrites the basis entries without changing the lengths |
| HApp.HighsModelObject.SetUpSolver | src/simplex/HApp.h:344-417 | performs exactly SetupSteps, leaves the basis arrays with the original LP's sizes, and sets the solver LP and simplex_info_ |
| HApp.HighsModelObject.SolveScipStep | src/simplex/HApp.h:342 | the scip branch records solveScip and returns OK; the solver LP, simplex_info_ and the basis arrays may be left with any values, since solveScip rescales and re-solves |
| HApp.HighsModelObject.RunSimplexSolver | src/simplex/HApp.h:339-442 | performs exactly RunSteps and returns RunOutcome. On the scip branch no HModel is pushed, and nothing else is promised about the solver LP, simplex_info_ or the basis. Otherwise one HModel is pushed, the solver LP is the (possibly transposed) original, simplex_info_ holds the options and the engine's status, and the basis arrays have the original LP's sizes. The solution and basis_info_ are written exactly when the result is Optimal, with basis_info_.nonbasic_move copied from nonbasicMove; on any other result they are left untouched |

## Left out

- The dual simplex, crash, factor and matrix set-up, and the scale, permute, tighten and random-vector routines (`HDual::solve`, `HCrash::crash`, `HFactor::setup`, `HMatrix::setup_lgBs`, `HSimplex::*`) are not part of this model. Their bodies are not modelled. Each is a trace step, and the engine's reported status is the parameter `engineStatus`.
- HApp.HighsModelObject.RunSimplexSolver: `initWithLogicalBasis`, `initFromNonbasic`, crash and the solve write the basis entries, and the model leaves their values unconstrained. So the final contents of the basis arrays, and what is copied into basis_info_.nonbasic_move, are not described. The allocation's contents (all-zero nonbasicFlag) are stated only for `AllocateBasis`. The engine routines are assumed to keep the arrays' lengths.
- HApp.HighsModelObject.SolveScipStep: solveScip's writes to the solver LP, simplex_info_ and the basis are not modelled; after the scip branch their values are arbitrary.
- HApp.HighsModelObject.PrepareSolverLp: `HSimplex::transpose_solver_lp` is assumed to always swap rows and columns when its flag is set. Its body, and any condition under which it declines to transpose, is not part of this model.
- `numRow_`, `numCol_` and `numTot` are C++ `int` (src/simplex/HApp.h:382). The model uses unbounded natural numbers, so it does not capture negative counts or overflow of `numCol + numRow`.
- Pipeline.InfoFromOptions: `HSimplex::options` is taken to copy the crash strategy, solve strategy and transform flags from the options. How it really derives them is not part of this model.
- `solveScip` (src/simplex/HApp.h:157-335) is a debug harness, so the model records it as one step. Its only return statement gives OK, and that is the result the model returns. Its effects on the model object are left arbitrary, as described for `SolveScipStep` above.
- Timers, `printf` and the HiGHSDEV benchmark output are I/O and are not modelled.
- The LP's matrix, bounds and costs are not modelled. Only its row and column counts matter to the driver.
- `&basicIndex_[0]` (src/simplex/HApp.h:417) indexes a vector that is empty when numRow = 0, and `&Aindex_[0]` and `&Avalue_[0]` (src/simplex/HApp.h:410-411, 415-416) index vectors that are empty when the LP has no nonzeros. This is undefined behaviour in C++, and the model, which has no pointers, does not capture it.
- The public `HighsStatus` values other than the eight this file returns are omitted from the datatype.
- The engine statuses, strategies and crash strategies beyond those the driver tells apart are folded into `UnlistedStatus`, `OtherStrategy` and `CrashOn`. Their declarations are not part of this model.
- src/simplex/HModel.h supplies only vocabulary. `mlFg_Update` has no body there, so the dirty-flag state machine is not modelled.
- The MPS and LP file readers (src/io/) are parsers built on file I/O and are outside the driver.
