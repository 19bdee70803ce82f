/**
 * What the driver's step sequence promises: a fixed order in which no
 * step repeats, each optional step gated by its own flag, crash before
 * the one solve call, basis sizes from the original LP.
 */
module PipelineProperties {
  import opened Wrappers
  import SC = SimplexConst
  import HS = HighsStatusConst
  import opened StatusTranslation
  import opened Pipeline

  /** Position of each kind of step in the driver's fixed order. */
  function Rank(s: Step): nat
  {
    match s
    case SolveScip => 0
    case PushHModel => 1
    case CopyLp => 2
    case SetSimplexOptions => 3
    case Transpose => 4
    case InitRandomVectors => 5
    case AllocateBasis(_, _) => 6
    case InitUnitScaling => 7
    case Scale => 8
    case Permute => 9
    case Tighten => 10
    case InitLogicalBasis => 11
    case MatrixSetup(_, _) => 12
    case FactorSetup(_, _, _) => 13
    case DualSetup => 14
    case InitFromNonbasic => 15
    case Crash => 16
    case DualSolve(_) => 17
  }

  /** Steps appear in strictly increasing rank. */
  predicate InOrder(t: seq<Step>)
  {
    forall i, j :: 0 <= i < j < |t| ==> Rank(t[i]) < Rank(t[j])
  }

  /** Every step of t has rank in [lo, hi). */
  predicate RanksWithin(t: seq<Step>, lo: nat, hi: nat)
  {
    forall i :: 0 <= i < |t| ==> lo <= Rank(t[i]) < hi
  }

  lemma OrderedConcat(a: seq<Step>, b: seq<Step>, lo: nat, mid: nat, hi: nat)
    requires lo <= mid <= hi
    requires InOrder(a) && RanksWithin(a, lo, mid)
    requires InOrder(b) && RanksWithin(b, mid, hi)
    ensures InOrder(a + b) && RanksWithin(a + b, lo, hi)
  {
    forall i, j | 0 <= i < j < |a + b|
      ensures Rank((a + b)[i]) < Rank((a + b)[j])
    {
      if j < |a| {
        assert (a + b)[i] == a[i] && (a + b)[j] == a[j];
      } else if i < |a| {
        assert (a + b)[i] == a[i] && (a + b)[j] == b[j - |a|];
      } else {
        assert (a + b)[i] == b[i - |a|] && (a + b)[j] == b[j - |a|];
      }
    }
    forall i | 0 <= i < |a + b|
      ensures lo <= Rank((a + b)[i]) < hi
    {
      if i < |a| {
        assert (a + b)[i] == a[i];
      } else {
        assert (a + b)[i] == b[i - |a|];
      }
    }
  }

  lemma GatedWithin(flag: bool, s: Step)
    ensures InOrder(Gated(flag, s)) && RanksWithin(Gated(flag, s), Rank(s), Rank(s) + 1)
  {
  }

  lemma CrashThenSolveInOrder(crash: SC.SimplexCrashStrategy, strategy: SC.SimplexStrategy)
    ensures var t := Gated(crash != SC.Off, Crash) + [DualSolve(SolverThreads(strategy))];
      InOrder(t) && RanksWithin(t, 16, 18)
  {
    GatedWithin(crash != SC.Off, Crash);
    OrderedConcat(Gated(crash != SC.Off, Crash), [DualSolve(SolverThreads(strategy))], 16, 17, 18);
  }

  lemma {:induction false} SolveStepsInOrder(cleanUp: bool, crash: SC.SimplexCrashStrategy, strategy: SC.SimplexStrategy)
    ensures InOrder(SolveSteps(cleanUp, crash, strategy))
    ensures RanksWithin(SolveSteps(cleanUp, crash, strategy), 14, 18)
  {
    if !cleanUp {
      CrashThenSolveInOrder(crash, strategy);
      OrderedConcat([DualSetup], Gated(crash != SC.Off, Crash) + [DualSolve(SolverThreads(strategy))], 14, 15, 18);
    }
  }

  lemma PrepareStepsInOrder(opt: HighsOptions)
    ensures InOrder(PrepareSteps(opt)) && RanksWithin(PrepareSteps(opt), 1, 5)
  {
    GatedWithin(opt.transposeSolverLp, Transpose);
    OrderedConcat([PushHModel, CopyLp, SetSimplexOptions], Gated(opt.transposeSolverLp, Transpose), 1, 4, 5);
  }

  lemma ScalePermuteInOrder(opt: HighsOptions)
    ensures var t := Gated(opt.scaleSolverLp, Scale) + Gated(opt.permuteSolverLp, Permute);
      InOrder(t) && RanksWithin(t, 8, 10)
  {
    GatedWithin(opt.scaleSolverLp, Scale);
    GatedWithin(opt.permuteSolverLp, Permute);
    OrderedConcat(Gated(opt.scaleSolverLp, Scale), Gated(opt.permuteSolverLp, Permute), 8, 9, 10);
  }

  lemma {:induction false} TransformStepsInOrder(opt: HighsOptions)
    ensures InOrder(TransformSteps(opt)) && RanksWithin(TransformSteps(opt), 8, 11)
  {
    ScalePermuteInOrder(opt);
    GatedWithin(opt.tightenSolverLp, Tighten);
    OrderedConcat(Gated(opt.scaleSolverLp, Scale) + Gated(opt.permuteSolverLp, Permute),
                  Gated(opt.tightenSolverLp, Tighten), 8, 10, 11);
  }

  lemma {:induction false} PrepareAllocateInOrder(opt: HighsOptions, lp: HighsLp)
    ensures var t := PrepareSteps(opt) + AllocateSteps(lp);
      InOrder(t) && RanksWithin(t, 1, 8)
  {
    PrepareStepsInOrder(opt);
    assert InOrder(AllocateSteps(lp)) && RanksWithin(AllocateSteps(lp), 5, 8);
    OrderedConcat(PrepareSteps(opt), AllocateSteps(lp), 1, 5, 8);
  }

  lemma {:induction false} ThroughTransformsInOrder(opt: HighsOptions, lp: HighsLp)
    ensures var t := PrepareSteps(opt) + AllocateSteps(lp) + TransformSteps(opt);
      InOrder(t) && RanksWithin(t, 1, 11)
  {
    PrepareAllocateInOrder(opt, lp);
    TransformStepsInOrder(opt);
    OrderedConcat(PrepareSteps(opt) + AllocateSteps(lp), TransformSteps(opt), 1, 8, 11);
  }

  lemma {:induction false} SetupStepsInOrder(opt: HighsOptions, lp: HighsLp)
    ensures InOrder(SetupSteps(opt, lp)) && RanksWithin(SetupSteps(opt, lp), 1, 14)
  {
    ThroughTransformsInOrder(opt, lp);
    assert InOrder(EngineSetupSteps(opt, lp)) && RanksWithin(EngineSetupSteps(opt, lp), 11, 14);
    OrderedConcat(PrepareSteps(opt) + AllocateSteps(lp) + TransformSteps(opt), EngineSetupSteps(opt, lp), 1, 11, 14);
  }

  /** runSimplexSolver performs its steps in the fixed order, none twice. */
  lemma {:induction false} RunStepsInOrder(opt: HighsOptions, lp: HighsLp)
    ensures InOrder(RunSteps(opt, lp))
  {
    if !opt.scip {
      SetupStepsInOrder(opt, lp);
      SolveStepsInOrder(opt.cleanUp, opt.crashStrategy, opt.simplexStrategy);
      OrderedConcat(SetupSteps(opt, lp), SolveSteps(opt.cleanUp, opt.crashStrategy, opt.simplexStrategy), 1, 14, 18);
    }
  }

  /** In an ordered trace no kind of step occurs twice. */
  lemma OrderedNoRepeat(t: seq<Step>, i: nat, j: nat)
    requires InOrder(t) && i < |t| && j < |t|
    requires Rank(t[i]) == Rank(t[j])
    ensures i == j
  {
  }

  /** With opt.scip set, nothing is set up: solveScip runs alone and OK is returned. */
  lemma ScipShortCircuits(opt: HighsOptions, lp: HighsLp, engineStatus: SC.SimplexSolutionStatus)
    requires opt.scip
    ensures RunSteps(opt, lp) == [SolveScip]
    ensures RunOutcome(opt, engineStatus) == HS.OK
  {
  }

  /** A step whose rank lies outside a piece's range is not in that piece. */
  lemma OutsideRanks(t: seq<Step>, lo: nat, hi: nat, x: Step)
    requires RanksWithin(t, lo, hi)
    requires Rank(x) < lo || hi <= Rank(x)
    ensures x !in t
  {
    forall i | 0 <= i < |t|
      ensures t[i] != x
    {
    }
  }

  lemma PrepareRanks(opt: HighsOptions)
    ensures RanksWithin(PrepareSteps(opt), 1, 5)
  {
    PrepareStepsInOrder(opt);
  }

  lemma TransformRanks(opt: HighsOptions)
    ensures RanksWithin(TransformSteps(opt), 8, 11)
  {
    TransformStepsInOrder(opt);
  }

  lemma SolveRanks(cleanUp: bool, crash: SC.SimplexCrashStrategy, strategy: SC.SimplexStrategy)
    ensures RanksWithin(SolveSteps(cleanUp, crash, strategy), 14, 18)
  {
    SolveStepsInOrder(cleanUp, crash, strategy);
  }

  /** Outside the scip branch the trace is the five pieces in order. */
  lemma RunStepsPieces(opt: HighsOptions, lp: HighsLp)
    requires !opt.scip
    ensures RunSteps(opt, lp) == PrepareSteps(opt) + AllocateSteps(lp) + TransformSteps(opt)
              + EngineSetupSteps(opt, lp) + SolveSteps(opt.cleanUp, opt.crashStrategy, opt.simplexStrategy)
  {
  }

  /**
   * Where each kind of step can occur: a step of rank k lies in the piece
   * whose ranks cover k, so membership in the whole trace is membership
   * in that piece.
   */
  lemma {:induction false} PrepareMembership(opt: HighsOptions, lp: HighsLp, x: Step)
    requires !opt.scip && 1 <= Rank(x) < 5
    ensures x in RunSteps(opt, lp) <==> x in PrepareSteps(opt)
  {
    RunStepsPieces(opt, lp);
    TransformRanks(opt);
    SolveRanks(opt.cleanUp, opt.crashStrategy, opt.simplexStrategy);
    OutsideRanks(AllocateSteps(lp), 5, 8, x);
    OutsideRanks(TransformSteps(opt), 8, 11, x);
    OutsideRanks(EngineSetupSteps(opt, lp), 11, 14, x);
    OutsideRanks(SolveSteps(opt.cleanUp, opt.crashStrategy, opt.simplexStrategy), 14, 18, x);
  }

  lemma {:induction false} TransformMembership(opt: HighsOptions, lp: HighsLp, x: Step)
    requires !opt.scip && 8 <= Rank(x) < 11
    ensures x in RunSteps(opt, lp) <==> x in TransformSteps(opt)
  {
    RunStepsPieces(opt, lp);
    PrepareRanks(opt);
    SolveRanks(opt.cleanUp, opt.crashStrategy, opt.simplexStrategy);
    OutsideRanks(PrepareSteps(opt), 1, 5, x);
    OutsideRanks(AllocateSteps(lp), 5, 8, x);
    OutsideRanks(EngineSetupSteps(opt, lp), 11, 14, x);
    OutsideRanks(SolveSteps(opt.cleanUp, opt.crashStrategy, opt.simplexStrategy), 14, 18, x);
  }

  lemma {:induction false} SolveMembership(opt: HighsOptions, lp: HighsLp, x: Step)
    requires !opt.scip && 14 <= Rank(x)
    ensures x in RunSteps(opt, lp) <==> x in SolveSteps(opt.cleanUp, opt.crashStrategy, opt.simplexStrategy)
  {
    RunStepsPieces(opt, lp);
    PrepareRanks(opt);
    TransformRanks(opt);
    OutsideRanks(PrepareSteps(opt), 1, 5, x);
    OutsideRanks(AllocateSteps(lp), 5, 8, x);
    OutsideRanks(TransformSteps(opt), 8, 11, x);
    OutsideRanks(EngineSetupSteps(opt, lp), 11, 14, x);
  }

  /** Each optional transform runs exactly when its flag is set. */
  lemma TransformsGatedByFlags(opt: HighsOptions, lp: HighsLp)
    requires !opt.scip
    ensures Transpose in RunSteps(opt, lp) <==> opt.transposeSolverLp
    ensures Scale in RunSteps(opt, lp) <==> opt.scaleSolverLp
    ensures Permute in RunSteps(opt, lp) <==> opt.permuteSolverLp
    ensures Tighten in RunSteps(opt, lp) <==> opt.tightenSolverLp
  {
    PrepareMembership(opt, lp, Transpose);
    TransformMembership(opt, lp, Scale);
    TransformMembership(opt, lp, Permute);
    TransformMembership(opt, lp, Tighten);
  }

  /** The mandatory set-up steps always run. */
  lemma MandatoryStepsRun(opt: HighsOptions, lp: HighsLp)
    requires !opt.scip
    ensures var t := RunSteps(opt, lp);
      PushHModel in t && CopyLp in t && SetSimplexOptions in t && InitRandomVectors in t &&
      InitUnitScaling in t && InitLogicalBasis in t && DualSetup in t
  {
  }

  /**
   * Crash runs exactly when crash is not OFF and the clean-up path is
   * not taken, and then before the solve call.
   */
  lemma {:induction false} CrashGatedAndBeforeSolve(opt: HighsOptions, lp: HighsLp)
    ensures Crash in RunSteps(opt, lp) <==>
              !opt.scip && !opt.cleanUp && opt.crashStrategy != SC.Off
    ensures forall i, j :: 0 <= i < |RunSteps(opt, lp)| && 0 <= j < |RunSteps(opt, lp)| &&
              RunSteps(opt, lp)[i] == Crash && RunSteps(opt, lp)[j].DualSolve?
              ==> i < j
  {
    var t := RunSteps(opt, lp);
    if !opt.scip {
      SolveMembership(opt, lp, Crash);
    }
    RunStepsInOrder(opt, lp);
    CrashPrecedesSolve(t);
  }

  /** In an ordered trace crash comes before any solve call. */
  lemma CrashPrecedesSolve(t: seq<Step>)
    requires InOrder(t)
    ensures forall i, j :: 0 <= i < |t| && 0 <= j < |t| && t[i] == Crash && t[j].DualSolve? ==> i < j
  {
    forall i, j | 0 <= i < |t| && 0 <= j < |t| && t[i] == Crash && t[j].DualSolve?
      ensures i < j
    {
      assert Rank(t[i]) < Rank(t[j]);
    }
  }

  /** Outside the scip branch the last step is the engine's solve call. */
  lemma SolveIsLast(opt: HighsOptions, lp: HighsLp)
    requires !opt.scip
    ensures |RunSteps(opt, lp)| > 0 && RunSteps(opt, lp)[|RunSteps(opt, lp)| - 1].DualSolve?
  {
    var setup := SetupSteps(opt, lp);
    var solve := SolveSteps(opt.cleanUp, opt.crashStrategy, opt.simplexStrategy);
    assert solve[|solve| - 1].DualSolve?;
    assert (setup + solve)[|setup + solve| - 1] == solve[|solve| - 1];
  }

  /** Outside the scip branch the engine's solve is called exactly once. */
  lemma {:induction false} ExactlyOneSolve(opt: HighsOptions, lp: HighsLp)
    requires !opt.scip
    ensures exists i :: 0 <= i < |RunSteps(opt, lp)| && RunSteps(opt, lp)[i].DualSolve?
    ensures forall i, j :: 0 <= i < |RunSteps(opt, lp)| && 0 <= j < |RunSteps(opt, lp)| &&
              RunSteps(opt, lp)[i].DualSolve? && RunSteps(opt, lp)[j].DualSolve?
              ==> i == j
  {
    var t := RunSteps(opt, lp);
    SolveIsLast(opt, lp);
    assert t[|t| - 1].DualSolve?;
    RunStepsInOrder(opt, lp);
    SolveAtMostOnce(t);
  }

  /** An ordered trace holds at most one solve call. */
  lemma SolveAtMostOnce(t: seq<Step>)
    requires InOrder(t)
    ensures forall i, j :: 0 <= i < |t| && 0 <= j < |t| && t[i].DualSolve? && t[j].DualSolve? ==> i == j
  {
    forall i, j | 0 <= i < |t| && 0 <= j < |t| && t[i].DualSolve? && t[j].DualSolve?
      ensures i == j
    {
      OrderedNoRepeat(t, i, j);
    }
  }

  /**
   * The clean-up path initialises from the nonbasic data and calls
   * solve() once without a thread argument; crash and strategy dispatch
   * are skipped, and the translated engine status is returned.
   */
  lemma CleanUpPath(opt: HighsOptions, lp: HighsLp, engineStatus: SC.SimplexSolutionStatus)
    requires !opt.scip && opt.cleanUp
    ensures RunSteps(opt, lp) == SetupSteps(opt, lp) + [DualSetup, InitFromNonbasic, DualSolve(None)]
    ensures RunOutcome(opt, engineStatus) == LpStatusToHighsStatus(engineStatus)
  {
  }

  /**
   * Outside clean-up the solve call's thread argument: 8 for the task and
   * multi strategies, none for every other strategy.
   */
  lemma DispatchThreads(opt: HighsOptions, lp: HighsLp)
    requires !opt.scip && !opt.cleanUp
    ensures SC.IsParallel(opt.simplexStrategy) ==> DualSolve(Some(8)) in RunSteps(opt, lp)
    ensures !SC.IsParallel(opt.simplexStrategy) ==> DualSolve(None) in RunSteps(opt, lp)
  {
    var solve := SolveSteps(opt.cleanUp, opt.crashStrategy, opt.simplexStrategy);
    assert solve[|solve| - 1] == DualSolve(SolverThreads(opt.simplexStrategy));
    assert RunSteps(opt, lp) == SetupSteps(opt, lp) + solve;
  }

  /**
   * The basis is allocated with the original LP's sizes, and the factor
   * is set up over a basis of that size, while matrix and factor set-up
   * take their dimensions from the (possibly transposed) solver LP.
   */
  lemma AllocationUsesOriginalLp(opt: HighsOptions, lp: HighsLp)
    requires !opt.scip
    ensures AllocateBasis(lp.numRow, lp.numCol + lp.numRow) in RunSteps(opt, lp)
    ensures FactorSetup(SolverLp(opt, lp).numCol, SolverLp(opt, lp).numRow, lp.numRow) in RunSteps(opt, lp)
    ensures MatrixSetup(SolverLp(opt, lp).numCol, SolverLp(opt, lp).numRow) in RunSteps(opt, lp)
  {
    var t := RunSteps(opt, lp);
    var setup := SetupSteps(opt, lp);
    assert t == setup + SolveSteps(opt.cleanUp, opt.crashStrategy, opt.simplexStrategy);
    assert setup[|setup| - 1] == FactorSetup(SolverLp(opt, lp).numCol, SolverLp(opt, lp).numRow, lp.numRow);
    assert setup[|setup| - 2] == MatrixSetup(SolverLp(opt, lp).numCol, SolverLp(opt, lp).numRow);
  }

  /**
   * With a transposed LP, every factor set-up in the trace takes its row
   * count from the solver LP (the original column count) but its
   * basicIndex from the original LP, so the two differ exactly when the
   * original LP is not square.
   */
  lemma {:induction false} TransposedFactorSizes(opt: HighsOptions, lp: HighsLp)
    requires !opt.scip && opt.transposeSolverLp
    ensures FactorSetup(lp.numRow, lp.numCol, lp.numRow) in RunSteps(opt, lp)
    ensures forall i :: 0 <= i < |RunSteps(opt, lp)| && RunSteps(opt, lp)[i].FactorSetup? ==>
              RunSteps(opt, lp)[i].numRow == lp.numCol && RunSteps(opt, lp)[i].basicSize == lp.numRow &&
              (RunSteps(opt, lp)[i].numRow != RunSteps(opt, lp)[i].basicSize <==> lp.numRow != lp.numCol)
  {
    var t := RunSteps(opt, lp);
    var setup := SetupSteps(opt, lp);
    var k := |setup| - 1;
    assert t == setup + SolveSteps(opt.cleanUp, opt.crashStrategy, opt.simplexStrategy);
    assert t[k] == setup[k] == FactorSetup(lp.numRow, lp.numCol, lp.numRow);
    RunStepsInOrder(opt, lp);
    forall i | 0 <= i < |t| && t[i].FactorSetup?
      ensures t[i] == t[k]
    {
      OrderedNoRepeat(t, i, k);
    }
  }

  /**
   * The returned status: translated engine status on the clean-up and
   * serial paths; Optimal on both parallel paths whatever the engine
   * reported.
   */
  lemma ParallelPathsReturnOptimal(opt: HighsOptions, engineStatus: SC.SimplexSolutionStatus)
    requires !opt.scip && !opt.cleanUp && SC.IsParallel(opt.simplexStrategy)
    ensures RunOutcome(opt, engineStatus) == HS.Optimal
  {
  }

  lemma SerialPathReturnsTranslation(opt: HighsOptions, engineStatus: SC.SimplexSolutionStatus)
    requires !opt.scip && !SC.IsParallel(opt.simplexStrategy)
    ensures RunOutcome(opt, engineStatus) == LpStatusToHighsStatus(engineStatus)
    ensures RunOutcome(opt, engineStatus) == HS.Optimal <==> engineStatus == SC.Optimal
  {
  }
}
