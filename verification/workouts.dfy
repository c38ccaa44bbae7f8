/**
 * The formula hierarchy of the workout calculator, as pure functions.
 *
 * `Training` and its three subclasses become one closed datatype with a
 * constructor per subclass. Each formula matches on the variant, so the
 * inherited and overridden parts of the hierarchy are visible in one place.
 * These are the reference definitions; the stateful steps in `Session`,
 * which read cached fields as the object does, are proved to agree with them.
 * Arithmetic is over exact reals.
 */
module Workouts {

  // Class constants of Training, inherited unless overridden.
  const M_IN_KM: real := 1000.0
  const LEN_STEP: real := 0.65
  const MIN_IN_H: real := 60.0

  // Running.
  const RUN_SPEED_MULTIPLIER: real := 18.0
  const RUN_SPEED_SHIFT: real := 1.79

  // SportsWalking.
  const WALK_WEIGHT_MULTIPLIER: real := 0.035
  const WALK_SPEED_HEIGHT_MULTIPLIER: real := 0.029
  const KMH_IN_MSEC: real := 0.278
  const CM_IN_M: real := 100.0

  // Swimming: its own LEN_STEP overrides the inherited one.
  const SWIM_LEN_STEP: real := 1.38
  const SWIM_SPEED_SHIFT: real := 1.1
  const SWIM_WEIGHT_MULTIPLIER: real := 2.0

  /** One workout, with the constructor fields of its class. */
  datatype Workout =
    | Running(action: real, duration: real, weight: real)
    | SportsWalking(action: real, duration: real, weight: real, height: real)
    | Swimming(action: real, duration: real, weight: real, lengthPool: real, countPool: real)

  /** The class name that becomes the message's training type. */
  function TrainingType(w: Workout): string
  {
    match w
    case Running(_, _, _) => "Running"
    case SportsWalking(_, _, _, _) => "SportsWalking"
    case Swimming(_, _, _, _, _) => "Swimming"
  }

  /** The `LEN_STEP` class attribute seen by `self` for this variant. */
  function LenStep(w: Workout): real
  {
    if w.Swimming? then SWIM_LEN_STEP else LEN_STEP
  }

  /** No divisor of the variant's speed and calorie formulas is zero. */
  predicate Computable(w: Workout)
  {
    w.duration != 0.0 && (w.SportsWalking? ==> w.height != 0.0)
  }

  /** Every field is non-negative and every divisor positive. */
  predicate Physical(w: Workout)
  {
    && w.action >= 0.0 && w.duration > 0.0 && w.weight >= 0.0
    && (w.SportsWalking? ==> w.height > 0.0)
    && (w.Swimming? ==> w.lengthPool >= 0.0 && w.countPool >= 0.0)
  }

  function Square(x: real): (r: real)
    ensures r >= 0.0
  {
    x * x
  }

  /** `get_distance`: steps (or strokes) times step length, in km. */
  function Distance(w: Workout): real
  {
    w.action * LenStep(w) / M_IN_KM
  }

  /** `get_mean_speed`: the base derives it from the distance, Swimming from the pool. */
  function MeanSpeed(w: Workout): real
    requires w.duration != 0.0
  {
    match w
    case Swimming(_, duration, _, lengthPool, countPool) =>
      lengthPool * countPool / M_IN_KM / duration
    case _ =>
      Distance(w) / w.duration
  }

  /** `get_spent_calories` of each variant, fed with the reference mean speed. */
  function Calories(w: Workout): real
    requires Computable(w)
  {
    match w
    case Running(_, duration, weight) =>
      (RUN_SPEED_MULTIPLIER * MeanSpeed(w) + RUN_SPEED_SHIFT)
      * weight / M_IN_KM * (duration * MIN_IN_H)
    case SportsWalking(_, duration, weight, height) =>
      (WALK_WEIGHT_MULTIPLIER * weight
       + (Square(MeanSpeed(w) * KMH_IN_MSEC) / (height / CM_IN_M))
       * WALK_SPEED_HEIGHT_MULTIPLIER * weight)
      * (duration * MIN_IN_H)
    case Swimming(_, duration, weight, _, _) =>
      (MeanSpeed(w) + SWIM_SPEED_SHIFT) * SWIM_WEIGHT_MULTIPLIER * weight * duration
  }

  /** The action count can be recovered from the distance: the distance is a
      fixed, invertible scaling of the count by the variant's step length. */
  lemma DistanceRecoversAction(w: Workout)
    ensures Distance(w) * M_IN_KM / LenStep(w) == w.action
  {
  }

  /** Swimming uses its overridden step length, so for any non-zero stroke
      count its distance differs from what the inherited 0.65 would give. */
  lemma SwimmingDistanceUsesOwnStep(w: Workout)
    requires w.Swimming?
    ensures Distance(w) == w.action * 1.38 / 1000.0
    ensures w.action != 0.0 <==> Distance(w) != w.action * LEN_STEP / M_IN_KM
  {
  }

  /** Running and SportsWalking share one distance: the same count gives the
      same kilometres whatever the other fields. */
  lemma BaseDistanceShared(a: real, d: real, wt: real, d2: real, wt2: real, h: real)
    ensures Distance(Running(a, d, wt)) == Distance(SportsWalking(a, d2, wt2, h))
    ensures Distance(Running(a, d, wt)) == a * 0.65 / 1000.0
  {
  }

  /** For the base formula, speed times duration gives back the distance. */
  lemma BaseSpeedCoversDistance(w: Workout)
    requires !w.Swimming? && w.duration != 0.0
    ensures MeanSpeed(w) * w.duration == Distance(w)
  {
  }

  /** Swimming speed times duration gives back the pool distance, which is
      unrelated to the stroke count. */
  lemma SwimmingSpeedCoversPool(w: Workout)
    requires w.Swimming? && w.duration != 0.0
    ensures MeanSpeed(w) * w.duration * M_IN_KM == w.lengthPool * w.countPool
  {
  }

  /** Swimming speed ignores the stroke count (hence `distance_km`). */
  lemma SwimmingSpeedIgnoresAction(a: real, a2: real, d: real, wt: real, lp: real, cp: real)
    requires d != 0.0
    ensures MeanSpeed(Swimming(a, d, wt, lp, cp)) == MeanSpeed(Swimming(a2, d, wt, lp, cp))
  {
  }

  /** Swimming speed equals distance / duration exactly when the pool
      distance happens to equal the stroke distance. */
  lemma SwimmingSpeedFromDistanceIff(w: Workout)
    requires w.Swimming? && w.duration != 0.0
    ensures MeanSpeed(w) == Distance(w) / w.duration
            <==> w.lengthPool * w.countPool == w.action * SWIM_LEN_STEP
  {
  }

  /** A witness that the base relation speed == distance / duration fails for
      Swimming: the sample pool session of 720 strokes, 25 m × 40 laps in one hour. */
  lemma SwimmingSpeedNotFromDistance()
    ensures var w := Swimming(720.0, 1.0, 80.0, 25.0, 40.0);
            MeanSpeed(w) != Distance(w) / w.duration
  {
  }

  /** Running calories in closed form: the duration cancels out of the speed
      term, leaving 0.06 · weight · (0.0117 · steps + 1.79 · hours). */
  lemma RunningCaloriesClosedForm(a: real, d: real, wt: real)
    requires d != 0.0
    ensures Calories(Running(a, d, wt)) == 0.06 * wt * (0.0117 * a + 1.79 * d)
  {
  }

  /** Swimming calories in closed form: 2 · weight · (pool km + 1.1 · hours). */
  lemma SwimmingCaloriesClosedForm(a: real, d: real, wt: real, lp: real, cp: real)
    requires d != 0.0
    ensures Calories(Swimming(a, d, wt, lp, cp)) == 2.0 * wt * (lp * cp / 1000.0 + 1.1 * d)
  {
  }

  /** With physical inputs the distance, speed and calories are all non-negative. */
  lemma PhysicalResultsNonNegative(w: Workout)
    requires Physical(w)
    ensures Distance(w) >= 0.0
    ensures MeanSpeed(w) >= 0.0
    ensures Calories(w) >= 0.0
  {
  }
}
