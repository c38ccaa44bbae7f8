/**
 * A workout object with its cached attributes, and the methods that fill them.
 *
 * The object writes `distance_km` in `get_distance`, `mean_speed` in
 * `get_mean_speed` and `calories` in `get_spent_calories`, and later methods
 * read those attributes instead of recomputing them. Here the object is an
 * immutable record whose cached attributes are `Option`s; each step returns
 * the updated record with its value. A step that reads an attribute requires
 * it to be set, which makes the call order distance -> speed -> calories
 * explicit. A division by zero, which the object raises, is an `Err`.
 */
module Session {
  import opened Wrappers
  import opened Workouts

  /** The reasons the calculator stops instead of producing a message. */
  datatype WorkoutError =
    | UnknownWorkoutType(code: string)   // KeyError from the lookup table
    | ArityMismatch(expected: nat, given: nat)   // TypeError from `*data`
    | ZeroDivision   // ZeroDivisionError from a zero duration or height

  /** `InfoMessage`: the five values reported for one workout. */
  datatype InfoMessage = InfoMessage(
    trainingType: string,
    duration: real,
    distance: real,
    speed: real,
    calories: real)

  /** A workout object: its constructor fields plus its cached attributes. */
  datatype Training = Training(
    workout: Workout,
    distanceKm: Option<real>,
    meanSpeed: Option<real>,
    calories: Option<real>,
    info: Option<InfoMessage>)

  /** A method's updated object together with the value it returned. */
  datatype Step = Step(state: Training, value: real)

  /** The object after `show_training_info`, with the message it returned. */
  datatype Shown = Shown(state: Training, message: InfoMessage)

  /** A freshly constructed object: no attribute has been computed yet. */
  function New(w: Workout): (t: Training)
    ensures t.workout == w
    ensures t.distanceKm.None? && t.meanSpeed.None? && t.calories.None? && t.info.None?
    ensures Coherent(t)
  {
    Training(w, None, None, None, None)
  }

  /** A cached `distance_km`, if any, is the reference distance. */
  predicate DistanceCoherent(t: Training)
  {
    t.distanceKm.Some? ==> t.distanceKm.value == Distance(t.workout)
  }

  /** A cached `mean_speed`, if any, is the reference speed. */
  predicate SpeedCoherent(t: Training)
  {
    t.meanSpeed.Some? ==> t.workout.duration != 0.0 && t.meanSpeed.value == MeanSpeed(t.workout)
  }

  /** Every attribute a later step reads holds what the reference formula gives. */
  predicate Coherent(t: Training)
  {
    DistanceCoherent(t) && SpeedCoherent(t)
  }

  /** What `get_mean_speed` reads: the base reads `distance_km`, Swimming nothing cached. */
  predicate SpeedReady(t: Training)
  {
    t.workout.Swimming? || t.distanceKm.Some?
  }

  /** What `get_spent_calories` reads: Running recomputes the speed from
      `distance_km`, the other two read `mean_speed`. */
  predicate CaloriesReady(t: Training)
  {
    if t.workout.Running? then t.distanceKm.Some? else t.meanSpeed.Some?
  }

  /** `get_distance`: computes the distance and caches it in `distance_km`. */
  function GetDistance(t: Training): (r: Step)
    ensures r.state == t.(distanceKm := Some(r.value))
    ensures r.value * M_IN_KM == t.workout.action * LenStep(t.workout)
    ensures DistanceCoherent(r.state)
    ensures SpeedCoherent(t) ==> SpeedCoherent(r.state)
    ensures SpeedReady(r.state)
  {
    var d := t.workout.action * LenStep(t.workout) / M_IN_KM;
    Step(t.(distanceKm := Some(d)), d)
  }

  /** `get_mean_speed`: the base divides the cached `distance_km` by the
      duration; Swimming divides the pool distance by it. */
  function GetMeanSpeed(t: Training): (r: Result<Step, WorkoutError>)
    requires SpeedReady(t)
    ensures r.Err? <==> t.workout.duration == 0.0
    ensures r.Err? ==> r.error == ZeroDivision
    ensures r.Ok? ==> r.value.state == t.(meanSpeed := Some(r.value.value))
    ensures r.Ok? && DistanceCoherent(t) ==> r.value.value == MeanSpeed(t.workout)
    ensures r.Ok? && DistanceCoherent(t) ==> Coherent(r.value.state)
  {
    var w := t.workout;
    if w.duration == 0.0 then Err(ZeroDivision)
    else
      var s := match w
        case Swimming(_, duration, _, lengthPool, countPool) =>
          lengthPool * countPool / M_IN_KM / duration
        case _ => t.distanceKm.value / w.duration;
      Ok(Step(t.(meanSpeed := Some(s)), s))
  }

  /** `get_spent_calories` of each variant, reading the cached attributes. */
  function GetSpentCalories(t: Training): (r: Result<Step, WorkoutError>)
    requires CaloriesReady(t)
    ensures r.Err? ==> r.error == ZeroDivision
    ensures Coherent(t) ==> (r.Ok? <==> Computable(t.workout))
    ensures r.Ok? ==> r.value.state.workout == t.workout
    ensures r.Ok? ==> r.value.state.distanceKm == t.distanceKm
    ensures r.Ok? ==> r.value.state.calories == Some(r.value.value)
    ensures r.Ok? ==> r.value.state.info == t.info
    ensures r.Ok? && !t.workout.Running? ==> r.value.state == t.(calories := Some(r.value.value))
    ensures r.Ok? && t.workout.Running? ==>
              t.workout.duration != 0.0 &&
              r.value.state == t.(meanSpeed := Some(t.distanceKm.value / t.workout.duration),
                                  calories := Some(r.value.value))
    ensures r.Ok? && Coherent(t) ==> r.value.value == Calories(t.workout)
    ensures r.Ok? && Coherent(t) ==> Coherent(r.value.state)
  {
    var w := t.workout;
    match w
    case Running(_, duration, weight) =>
      var durationTime := duration * MIN_IN_H;
      var sp := GetMeanSpeed(t);
      if sp.Err? then Err(sp.error)
      else
        var c := (RUN_SPEED_MULTIPLIER * sp.value.value + RUN_SPEED_SHIFT)
                 * weight / M_IN_KM * durationTime;
        Ok(Step(sp.value.state.(calories := Some(c)), c))
    case SportsWalking(_, duration, weight, height) =>
      var durationTime := duration * MIN_IN_H;
      var speedInMs := t.meanSpeed.value * KMH_IN_MSEC;
      var heightM := height / CM_IN_M;
      if heightM == 0.0 then Err(ZeroDivision)
      else
        var c := (WALK_WEIGHT_MULTIPLIER * weight
                  + (Square(speedInMs) / heightM) * WALK_SPEED_HEIGHT_MULTIPLIER * weight)
                 * durationTime;
        Ok(Step(t.(calories := Some(c)), c))
    case Swimming(_, duration, weight, _, _) =>
      var c := (t.meanSpeed.value + SWIM_SPEED_SHIFT) * SWIM_WEIGHT_MULTIPLIER * weight * duration;
      Ok(Step(t.(calories := Some(c)), c))
  }

  /** `show_training_info`: distance, then speed, then calories (computed
      twice, once for its side effect and once for the message), then the
      message, which is also cached in `info`. */
  function ShowTrainingInfo(t: Training): (r: Result<Shown, WorkoutError>)
    ensures r.Err? <==> !Computable(t.workout)
    ensures r.Err? ==> r.error == ZeroDivision
    ensures r.Ok? ==> r.value.message == InfoMessage(TrainingType(t.workout), t.workout.duration,
                                                     Distance(t.workout), MeanSpeed(t.workout),
                                                     Calories(t.workout))
    ensures r.Ok? ==> r.value.state == Training(t.workout, Some(Distance(t.workout)),
                                                Some(MeanSpeed(t.workout)),
                                                Some(Calories(t.workout)), Some(r.value.message))
    ensures r.Ok? ==> Coherent(r.value.state) && CaloriesReady(r.value.state)
  {
    var d := GetDistance(t);
    var sp := GetMeanSpeed(d.state);
    if sp.Err? then Err(sp.error)
    else
      var c1 := GetSpentCalories(sp.value.state);
      if c1.Err? then Err(c1.error)
      else
        var t1 := c1.value.state;
        // The second call cannot fail where the first succeeded.
        var c2 := GetSpentCalories(t1).value;
        var msg := InfoMessage(TrainingType(t1.workout), t1.workout.duration,
                               t1.distanceKm.value, t1.meanSpeed.value, c2.value);
        Ok(Shown(c2.state.(info := Some(msg)), msg))
  }

  /** A second `get_spent_calories` on the object the first one left behind
      returns the same value and leaves the object as it was: the method
      writes only attributes it either does not read or rewrites unchanged. */
  lemma SpentCaloriesIdempotent(t: Training)
    requires CaloriesReady(t) && Coherent(t)
    requires GetSpentCalories(t).Ok?
    ensures CaloriesReady(GetSpentCalories(t).value.state)
    ensures GetSpentCalories(GetSpentCalories(t).value.state) == GetSpentCalories(t)
  {
  }

  /** Showing the info twice gives the same message and the same object. */
  lemma ShowTrainingInfoIdempotent(t: Training)
    requires Computable(t.workout)
    ensures ShowTrainingInfo(t).Ok?
    ensures ShowTrainingInfo(ShowTrainingInfo(t).value.state) == ShowTrainingInfo(t)
  {
  }
}
