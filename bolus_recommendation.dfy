/** `BolusRecommendationNotice` and `ManualBolusRecommendation`: the notice
    attached to a manual bolus recommendation and the recommendation's own
    equality and ordering, as the app defines them (not as derived ones). */
module BolusRecommendation {
  import opened Common

  /** LoopKit `GlucoseValue`: a dated glucose quantity (in mg/dL here). */
  datatype GlucoseValue = GlucoseValue(startDate: Time, endDate: Time, quantity: real)

  datatype Notice =
    | GlucoseBelowSuspendThreshold(minGlucose: GlucoseValue)
    | CurrentGlucoseBelowTarget(glucose: GlucoseValue)
    | PredictedGlucoseBelowTarget(minGlucose: GlucoseValue)
    | CarbOnly(carbs: real, originalAmount: Option<real>)

  /** The notice `==`. */
  predicate NoticeEqual(a: Notice, b: Notice)
  {
    match (a, b)
    case (GlucoseBelowSuspendThreshold(_), GlucoseBelowSuspendThreshold(_)) => true
    case (CurrentGlucoseBelowTarget(_), CurrentGlucoseBelowTarget(_)) => true
    case (PredictedGlucoseBelowTarget(g1), PredictedGlucoseBelowTarget(g2)) =>
      g1.startDate == g2.startDate && g1.endDate == g2.endDate && g1.quantity == g2.quantity
    case _ => false
  }

  /** Which case a notice is, 0 to 3 in declaration order. */
  function Case(n: Notice): (c: nat)
    ensures c < 4
    ensures c == 0 <==> n.GlucoseBelowSuspendThreshold?
    ensures c == 1 <==> n.CurrentGlucoseBelowTarget?
    ensures c == 2 <==> n.PredictedGlucoseBelowTarget?
    ensures c == 3 <==> n.CarbOnly?
  {
    match n
    case GlucoseBelowSuspendThreshold(_) => 0
    case CurrentGlucoseBelowTarget(_) => 1
    case PredictedGlucoseBelowTarget(_) => 2
    case CarbOnly(_, _) => 3
  }

  /** Notices are equal exactly when they are of the same case, that case is
      not `carbOnly`, and, for `predictedGlucoseBelowTarget`, their glucose
      values agree; the payload of the two other cases is ignored. */
  lemma NoticeEqualCharacterized(a: Notice, b: Notice)
    ensures NoticeEqual(a, b) <==>
              Case(a) == Case(b) && !a.CarbOnly?
              && (a.PredictedGlucoseBelowTarget? ==> a.minGlucose == b.minGlucose)
  {
  }

  /** `carbOnly` is equal to nothing, not even to itself. */
  lemma CarbOnlyNeverEqual(a: Notice, b: Notice)
    requires a.CarbOnly? || b.CarbOnly?
    ensures !NoticeEqual(a, b)
  {
  }

  /** The notice `==` is symmetric and transitive, and reflexive on every
      notice but `carbOnly` ones. */
  lemma NoticeEqualIsPartialEquivalence(a: Notice, b: Notice, c: Notice)
    ensures NoticeEqual(a, a) <==> !a.CarbOnly?
    ensures NoticeEqual(a, b) ==> NoticeEqual(b, a)
    ensures NoticeEqual(a, b) && NoticeEqual(b, c) ==> NoticeEqual(a, c)
  {
  }

  datatype ManualBolusRecommendation = ManualBolusRecommendation(
    amount: real,
    carbs: real,
    pendingInsulin: real,
    notice: Option<Notice>)

  /** `init(amount:pendingInsulin:notice:carbs:)`, with its defaults. */
  function NewRecommendation(amount: real, pendingInsulin: real, notice: Option<Notice> := None, carbs: real := 0.0)
    : (r: ManualBolusRecommendation)
    ensures r.amount == amount && r.pendingInsulin == pendingInsulin
    ensures r.carbs == carbs && r.notice == notice
  {
    ManualBolusRecommendation(amount, carbs, pendingInsulin, notice)
  }

  /** Without the optional arguments, no carbs and no notice. */
  lemma NewRecommendationDefaults(amount: real, pendingInsulin: real)
    ensures NewRecommendation(amount, pendingInsulin).carbs == 0.0
    ensures NewRecommendation(amount, pendingInsulin).notice == None
  {
  }

  /** The recommendation `==`: amount and carbs only. */
  predicate Equal(a: ManualBolusRecommendation, b: ManualBolusRecommendation)
  {
    a.amount == b.amount && a.carbs == b.carbs
  }

  /** The recommendation `<` as written. */
  predicate Less(a: ManualBolusRecommendation, b: ManualBolusRecommendation)
  {
    a.amount < b.amount || a.carbs < b.carbs
  }

  /** `==` is an equivalence that ignores the pending insulin and the notice. */
  lemma EqualIgnoresPendingAndNotice(a: ManualBolusRecommendation, p: real, n: Option<Notice>)
    ensures Equal(a, a.(pendingInsulin := p, notice := n))
    ensures forall b: ManualBolusRecommendation, c: ManualBolusRecommendation ::
              Equal(a, b) && Equal(b, c) ==> Equal(a, c) && Equal(b, a)
  {
  }

  /** `<` is irreflexive and never holds between equal recommendations. */
  lemma LessIrreflexive(a: ManualBolusRecommendation, b: ManualBolusRecommendation)
    requires Equal(a, b)
    ensures !Less(a, b) && !Less(b, a)
  {
  }

  /** `<` is not asymmetric: a larger amount with fewer carbs is both below
      and above a smaller amount with more carbs. */
  lemma LessBothWays()
    ensures var a := NewRecommendation(1.0, 0.0, None, 5.0);
            var b := NewRecommendation(2.0, 0.0, None, 0.0);
            Less(a, b) && Less(b, a) && !Equal(a, b)
  {
  }

  /** The ordering the comparison evidently means: by amount, then by carbs. */
  predicate LexLess(a: ManualBolusRecommendation, b: ManualBolusRecommendation)
  {
    a.amount < b.amount || (a.amount == b.amount && a.carbs < b.carbs)
  }

  /** The lexicographic order is a strict total order whose incomparable
      pairs are exactly the equal ones, as `Comparable` requires. */
  lemma LexLessIsStrictTotalOrder(a: ManualBolusRecommendation, b: ManualBolusRecommendation, c: ManualBolusRecommendation)
    ensures !LexLess(a, a)
    ensures LexLess(a, b) ==> !LexLess(b, a)
    ensures LexLess(a, b) && LexLess(b, c) ==> LexLess(a, c)
    ensures LexLess(a, b) || LexLess(b, a) || Equal(a, b)
    ensures Equal(a, b) ==> !LexLess(a, b)
  {
  }

  /** Wherever the two orders disagree, the written one says "below both
      ways": every strict lexicographic step is also a written one, and the
      written order adds only pairs that it also orders in reverse. */
  lemma LexLessRefinesLess(a: ManualBolusRecommendation, b: ManualBolusRecommendation)
    ensures LexLess(a, b) ==> Less(a, b)
    ensures Less(a, b) && !LexLess(a, b) ==> Less(b, a)
  {
  }
}
