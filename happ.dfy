/**
 * The simplex driver acting on the HiGHS model object: solveSimplex and
 * runSimplexSolver as methods that change the object's fields step by
 * step. Their traces and results are proved equal to the specification
 * functions of Pipeline; the basis allocation is proved against Resized
 * and Filled, the models of std::vector's resize and assign.
 */
module HApp {
  import opened Wrappers
  import SC = SimplexConst
  import HS = HighsStatusConst
  import opened StatusTranslation
  import opened Pipeline

  /**
   * std::vector<int>::resize(n): the first n entries are kept, and any
   * new entries are value-initialised to 0.
   */
  function Resized(s: seq<int>, n: nat): (r: seq<int>)
    ensures |r| == n
    ensures forall i :: 0 <= i < n ==> r[i] == (if i < |s| then s[i] else 0)
  {
    if n <= |s| then s[..n] else s + seq(n - |s|, _ => 0)
  }

  lemma ConcatAssociates(a: seq<Step>, b: seq<Step>, c: seq<Step>)
    ensures a + b + c == a + (b + c)
  {
  }

  /** std::vector<int>::assign(n, v): exactly n entries, all equal to v. */
  function Filled(n: nat, v: int): seq<int>
  {
    seq(n, _ => v)
  }

  /**
   * The part of HighsModelObject that the driver reads and writes: the
   * original LP lp_ (read only), the solver LP solver_lp_, the number of
   * HModel instances in hmodel_, simplex_info_, the basis arrays, and
   * what is written back (solution_ and basis_info_). trace records the
   * engine steps the driver performs, in order.
   */
  class HighsModelObject {
    const lp: HighsLp
    var solverLp: HighsLp
    var hmodelCount: nat
    var info: SimplexInfo
    var basicIndex: seq<int>
    var nonbasicFlag: seq<int>
    var nonbasicMove: seq<int>
    var trace: seq<Step>
    var solutionWritten: bool
    var basisInfoWritten: bool
    var basisInfoNonbasicMove: seq<int>

    /** A model object holding lp and nothing derived from it yet. */
    constructor (lp: HighsLp, info: SimplexInfo)
      ensures this.lp == lp && this.info == info
      ensures solverLp == HighsLp(0, 0) && hmodelCount == 0
      ensures basicIndex == [] && nonbasicFlag == [] && nonbasicMove == []
      ensures trace == [] && !solutionWritten && !basisInfoWritten && basisInfoNonbasicMove == []
    {
      this.lp := lp;
      this.info := info;
      solverLp := HighsLp(0, 0);
      hmodelCount := 0;
      basicIndex, nonbasicFlag, nonbasicMove := [], [], [];
      trace := [];
      solutionWritten, basisInfoWritten := false, false;
      basisInfoNonbasicMove := [];
    }

    /** The basis arrays have the sizes of the original LP. */
    predicate BasisAllocated()
      reads this
    {
      |basicIndex| == lp.numRow &&
      |nonbasicFlag| == lp.numCol + lp.numRow &&
      |nonbasicMove| == lp.numCol + lp.numRow
    }

    /**
     * Basis allocation: basicIndex sized to the original LP's row count,
     * nonbasicFlag and nonbasicMove to its column plus row count, every
     * nonbasicFlag entry 0.
     */
    method AllocateBasis()
      modifies this`basicIndex, this`nonbasicFlag, this`nonbasicMove, this`trace
      ensures BasisAllocated()
      ensures basicIndex == Resized(old(basicIndex), lp.numRow)
      ensures nonbasicFlag == Filled(lp.numCol + lp.numRow, 0)
      ensures nonbasicMove == Resized(old(nonbasicMove), lp.numCol + lp.numRow)
      ensures trace == old(trace) + [Step.AllocateBasis(lp.numRow, lp.numCol + lp.numRow)]
    {
      var numTot := lp.numCol + lp.numRow;
      basicIndex := Resized(basicIndex, lp.numRow);
      nonbasicFlag := Filled(numTot, 0);
      nonbasicMove := Resized(nonbasicMove, numTot);
      trace := trace + [Step.AllocateBasis(lp.numRow, numTot)];
    }

    /**
     * The effect on the basis arrays of an engine routine whose body is
     * not modelled (initWithLogicalBasis, initFromNonbasic, crash, the
     * dual simplex solve): they write the entries of basicIndex,
     * nonbasicFlag and nonbasicMove in place, so the lengths stay and the
     * contents may be anything.
     */
    method EngineRewritesBasis()
      modifies this`basicIndex, this`nonbasicFlag, this`nonbasicMove
      ensures |basicIndex| == old(|basicIndex|)
      ensures |nonbasicFlag| == old(|nonbasicFlag|)
      ensures |nonbasicMove| == old(|nonbasicMove|)
    {
      var newBasicIndex: seq<int> :| |newBasicIndex| == |basicIndex|;
      var newNonbasicFlag: seq<int> :| |newNonbasicFlag| == |nonbasicFlag|;
      var newNonbasicMove: seq<int> :| |newNonbasicMove| == |nonbasicMove|;
      basicIndex, nonbasicFlag, nonbasicMove := newBasicIndex, newNonbasicFlag, newNonbasicMove;
    }

    /**
     * The dual simplex engine's solve call, uninterpreted: it records the
     * call with its thread argument, leaves engineStatus, the status the
     * engine reports, in simplex_info_, and rewrites the basis entries.
     */
    method DualSolverSolve(threads: Option<int>, engineStatus: SC.SimplexSolutionStatus)
      modifies this`info, this`trace, this`basicIndex, this`nonbasicFlag, this`nonbasicMove
      ensures info == old(info).(solutionStatus := engineStatus)
      ensures trace == old(trace) + [DualSolve(threads)]
      ensures |basicIndex| == old(|basicIndex|) && |nonbasicFlag| == old(|nonbasicFlag|)
      ensures |nonbasicMove| == old(|nonbasicMove|)
    {
      info := info.(solutionStatus := engineStatus);
      trace := trace + [DualSolve(threads)];
      EngineRewritesBasis();
    }

    /**
     * solveSimplex: on clean-up, initialise from the nonbasic data and
     * solve; otherwise crash when a crash strategy is set, then dispatch
     * on the strategy. engineStatus is the status the engine reports.
     */
    method SolveSimplex(opt: HighsOptions, engineStatus: SC.SimplexSolutionStatus)
      returns (result: HS.HighsStatus)
      requires hmodelCount >= 1
      modifies this`info, this`trace, this`basicIndex, this`nonbasicFlag, this`nonbasicMove
      ensures trace == old(trace) + SolveSteps(opt.cleanUp, old(info).crashStrategy, old(info).simplexStrategy)
      ensures info == old(info).(solutionStatus := engineStatus)
      ensures result == SolveOutcome(opt.cleanUp, old(info).simplexStrategy, engineStatus)
      ensures |basicIndex| == old(|basicIndex|) && |nonbasicFlag| == old(|nonbasicFlag|)
      ensures |nonbasicMove| == old(|nonbasicMove|)
    {
      trace := trace + [DualSetup];
      if opt.cleanUp {
        trace := trace + [InitFromNonbasic];
        EngineRewritesBasis();
        DualSolverSolve(None, engineStatus);
        result := LpStatusToHighsStatus(info.solutionStatus);
        return;
      }

      if info.crashStrategy != SC.Off {
        trace := trace + [Crash];
        EngineRewritesBasis();
      }

      if info.simplexStrategy == SC.DualTasks {
        DualSolverSolve(Some(8), engineStatus);
      } else if info.simplexStrategy == SC.DualMulti {
        DualSolverSolve(Some(8), engineStatus);
      } else {
        DualSolverSolve(SerialThreads(), engineStatus);
        result := LpStatusToHighsStatus(info.solutionStatus);
        if result != HS.Optimal {
          return;
        }
      }
      result := HS.Optimal;
    }

    /**
     * The start of runSimplexSolver's set-up: a new HModel, the solver LP
     * copied from the original, simplex_info_ set from the options, and
     * the solver LP transposed when asked for.
     */
    method PrepareSolverLp(opt: HighsOptions)
      modifies this`hmodelCount, this`solverLp, this`info, this`trace
      ensures hmodelCount == old(hmodelCount) + 1
      ensures solverLp == SolverLp(opt, lp)
      ensures info == InfoFromOptions(opt, old(info).solutionStatus)
      ensures trace == old(trace) + PrepareSteps(opt)
    {
      trace := trace + [PushHModel];
      hmodelCount := hmodelCount + 1;

      trace := trace + [CopyLp];
      solverLp := lp;

      trace := trace + [SetSimplexOptions];
      info := InfoFromOptions(opt, info.solutionStatus);

      if info.transposeSolverLp {
        trace := trace + [Transpose];
        solverLp := Transposed(solverLp);
      }
    }

    /** The optional transforms of the solver LP, each run when its flag is set. */
    method TransformSolverLp()
      modifies this`trace
      ensures trace == old(trace) + Gated(info.scaleSolverLp, Scale) +
                Gated(info.permuteSolverLp, Permute) + Gated(info.tightenSolverLp, Tighten)
    {
      if info.scaleSolverLp {
        trace := trace + [Scale];
      }
      if info.permuteSolverLp {
        trace := trace + [Permute];
      }
      if info.tightenSolverLp {
        trace := trace + [Tighten];
      }
    }

    /** Logical basis, then matrix and factor set-up over the solver LP. */
    method SetupEngine()
      modifies this`trace, this`basicIndex, this`nonbasicFlag, this`nonbasicMove
      ensures trace == old(trace) +
                [InitLogicalBasis,
                 MatrixSetup(solverLp.numCol, solverLp.numRow),
                 FactorSetup(solverLp.numCol, solverLp.numRow, |basicIndex|)]
      ensures |basicIndex| == old(|basicIndex|) && |nonbasicFlag| == old(|nonbasicFlag|)
      ensures |nonbasicMove| == old(|nonbasicMove|)
    {
      trace := trace + [InitLogicalBasis];
      EngineRewritesBasis();
      trace := trace + [MatrixSetup(solverLp.numCol, solverLp.numRow)];
      trace := trace + [FactorSetup(solverLp.numCol, solverLp.numRow, |basicIndex|)];
    }

    /**
     * The set-up part of runSimplexSolver, from the new HModel to the
     * factor set-up.
     */
    method SetUpSolver(opt: HighsOptions)
      modifies this`hmodelCount, this`solverLp, this`info, this`trace
      modifies this`basicIndex, this`nonbasicFlag, this`nonbasicMove
      ensures trace == old(trace) + SetupSteps(opt, lp)
      ensures hmodelCount == old(hmodelCount) + 1
      ensures solverLp == SolverLp(opt, lp)
      ensures info == InfoFromOptions(opt, old(info).solutionStatus)
      ensures BasisAllocated()
    {
      PrepareSolverLp(opt);
      ghost var prepared := trace;

      trace := trace + [InitRandomVectors];
      AllocateBasis();
      trace := trace + [InitUnitScaling];
      assert trace == prepared + AllocateSteps(lp);
      ghost var withBasis := trace;

      TransformSolverLp();
      ghost var transformed := trace;
      assert transformed == withBasis + TransformSteps(opt);

      SetupEngine();
      assert trace == transformed + EngineSetupSteps(opt, lp);
      ghost var P, A, T := PrepareSteps(opt), AllocateSteps(lp), TransformSteps(opt);
      ConcatAssociates(old(trace), P, A);
      ConcatAssociates(old(trace), P + A, T);
      ConcatAssociates(old(trace), P + A + T, EngineSetupSteps(opt, lp));
    }

    /**
     * solveScip, uninterpreted: it rescales and re-solves the solver LP,
     * so the solver LP, simplex_info_ and the basis arrays may be left
     * with any values; it returns OK, its only return statement, and
     * writes neither the solution nor basis_info_.
     */
    method SolveScipStep() returns (result: HS.HighsStatus)
      modifies this`trace, this`solverLp, this`info, this`basicIndex, this`nonbasicFlag, this`nonbasicMove
      ensures trace == old(trace) + [SolveScip]
      ensures result == HS.OK
    {
      trace := trace + [SolveScip];
      var newSolverLp: HighsLp :| true;
      var newInfo: SimplexInfo :| true;
      solverLp, info := newSolverLp, newInfo;
      var newBasicIndex: seq<int> :| true;
      var newNonbasicFlag: seq<int> :| true;
      var newNonbasicMove: seq<int> :| true;
      basicIndex, nonbasicFlag, nonbasicMove := newBasicIndex, newNonbasicFlag, newNonbasicMove;
      result := HS.OK;
    }

    /**
     * runSimplexSolver: the scip branch, or the set-up of the solver LP
     * and basis, the solve, and the write-back of the solution and basis
     * on an Optimal result only.
     */
    method RunSimplexSolver(opt: HighsOptions, engineStatus: SC.SimplexSolutionStatus)
      returns (result: HS.HighsStatus)
      modifies this
      ensures result == RunOutcome(opt, engineStatus)
      ensures trace == old(trace) + RunSteps(opt, lp)
      ensures opt.scip ==> hmodelCount == old(hmodelCount)
      ensures !opt.scip ==>
                hmodelCount == old(hmodelCount) + 1 &&
                solverLp == SolverLp(opt, lp) &&
                info == InfoFromOptions(opt, engineStatus) &&
                BasisAllocated()
      ensures solutionWritten == (old(solutionWritten) || WritesBack(opt, engineStatus))
      ensures basisInfoWritten == (old(basisInfoWritten) || WritesBack(opt, engineStatus))
      ensures basisInfoNonbasicMove ==
                if WritesBack(opt, engineStatus) then nonbasicMove else old(basisInfoNonbasicMove)
    {
      if opt.scip {
        result := SolveScipStep();
        return;
      }

      SetUpSolver(opt);
      ghost var setUp := trace;

      result := SolveSimplex(opt, engineStatus);
      ConcatAssociates(old(trace), SetupSteps(opt, lp), SolveSteps(opt.cleanUp, opt.crashStrategy, opt.simplexStrategy));

      if result != HS.Optimal {
        return;
      }

      solutionWritten := true;
      basisInfoWritten := true;
      basisInfoNonbasicMove := nonbasicMove;
    }
  }
}
