/**
 * Translation of the simplex engine's solution status into the public
 * HighsStatus.
 */
module StatusTranslation {
  import SC = SimplexConst
  import HS = HighsStatusConst
  import Wrappers

  /**
   * The driver's switch. Each named engine status has its own public
   * status except FAILED and SINGULAR, which share SolutionError; every
   * status the switch does not name becomes NotImplemented. OK is never
   * produced.
   */
  function LpStatusToHighsStatus(s: SC.SimplexSolutionStatus): (r: HS.HighsStatus)
    ensures r == HS.Optimal <==> s == SC.Optimal
    ensures r == HS.Infeasible <==> s == SC.Infeasible
    ensures r == HS.Unbounded <==> s == SC.Unbounded
    ensures r == HS.Timeout <==> s == SC.OutOfTime
    ensures r == HS.ReachedDualObjectiveUpperBound <==> s == SC.ReachedDualObjectiveValueUpperBound
    ensures r == HS.SolutionError <==> s == SC.Failed || s == SC.Singular
    ensures r == HS.NotImplemented <==> s.UnlistedStatus?
    ensures r != HS.OK
  {
    match s
    case OutOfTime => HS.Timeout
    case ReachedDualObjectiveValueUpperBound => HS.ReachedDualObjectiveUpperBound
    case Failed => HS.SolutionError
    case Singular => HS.SolutionError
    case Unbounded => HS.Unbounded
    case Infeasible => HS.Infeasible
    case Optimal => HS.Optimal
    case UnlistedStatus(_) => HS.NotImplemented
  }

  /**
   * Independent description of the translation, from the public side:
   * the engine statuses that the driver reports as h.
   */
  predicate ReportedAs(h: HS.HighsStatus, s: SC.SimplexSolutionStatus)
  {
    match h
    case OK => false
    case Optimal => s.Optimal?
    case Infeasible => s.Infeasible?
    case Unbounded => s.Unbounded?
    case Timeout => s.OutOfTime?
    case ReachedDualObjectiveUpperBound => s.ReachedDualObjectiveValueUpperBound?
    case SolutionError => s.Failed? || s.Singular?
    case NotImplemented => s.UnlistedStatus?
  }

  /** The switch and the public-side description agree on every pair. */
  lemma TranslationMatchesReportedAs(s: SC.SimplexSolutionStatus, h: HS.HighsStatus)
    ensures LpStatusToHighsStatus(s) == h <==> ReportedAs(h, s)
  {
  }

  /**
   * The engine statuses that carry their own public status; on these the
   * translation can be undone.
   */
  predicate Distinguished(s: SC.SimplexSolutionStatus)
  {
    !(s.Failed? || s.Singular? || s.UnlistedStatus?)
  }

  /** Left inverse of the translation on the distinguished statuses. */
  function EngineStatusOf(h: HS.HighsStatus): (r: Wrappers.Option<SC.SimplexSolutionStatus>)
    ensures r.Some? ==> Distinguished(r.value) && LpStatusToHighsStatus(r.value) == h
  {
    match h
    case Optimal => Wrappers.Some(SC.Optimal)
    case Infeasible => Wrappers.Some(SC.Infeasible)
    case Unbounded => Wrappers.Some(SC.Unbounded)
    case Timeout => Wrappers.Some(SC.OutOfTime)
    case ReachedDualObjectiveUpperBound => Wrappers.Some(SC.ReachedDualObjectiveValueUpperBound)
    case _ => Wrappers.None
  }

  /** Round trip: a distinguished status is recovered from its translation. */
  lemma DistinguishedRoundTrip(s: SC.SimplexSolutionStatus)
    ensures Distinguished(s) <==> EngineStatusOf(LpStatusToHighsStatus(s)) == Wrappers.Some(s)
  {
  }

  /** The translation is many-to-one: FAILED and SINGULAR collapse. */
  lemma TranslationNotInjective()
    ensures SC.Failed != SC.Singular
    ensures LpStatusToHighsStatus(SC.Failed) == LpStatusToHighsStatus(SC.Singular) == HS.SolutionError
  {
  }

  /** Every public status except OK is the translation of some engine status. */
  lemma TranslationImage(h: HS.HighsStatus)
    ensures h != HS.OK <==> exists s :: LpStatusToHighsStatus(s) == h
  {
    if h != HS.OK {
      var s := match h
        case Optimal => SC.Optimal
        case Infeasible => SC.Infeasible
        case Unbounded => SC.Unbounded
        case Timeout => SC.OutOfTime
        case ReachedDualObjectiveUpperBound => SC.ReachedDualObjectiveValueUpperBound
        case SolutionError => SC.Failed
        case _ => SC.UnlistedStatus(0);
      assert LpStatusToHighsStatus(s) == h;
    }
  }
}
