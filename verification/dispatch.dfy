/**
 * `read_package`: the table from a workout code to a workout class, and the
 * positional binding of the data list to that class's constructor.
 */
module Dispatch {
  import opened Wrappers
  import opened Workouts
  import opened Session

  /** The codes the lookup table knows. */
  predicate KnownCode(code: string)
  {
    code == "SWM" || code == "RUN" || code == "WLK"
  }

  /** The number of constructor parameters of the class a known code names. */
  function Arity(code: string): nat
    requires KnownCode(code)
  {
    if code == "SWM" then 5 else if code == "RUN" then 3 else 4
  }

  /** The code that selects a workout's class in the lookup table. */
  function Code(w: Workout): (c: string)
    ensures KnownCode(c)
  {
    match w
    case Running(_, _, _) => "RUN"
    case SportsWalking(_, _, _, _) => "WLK"
    case Swimming(_, _, _, _, _) => "SWM"
  }

  /** The constructor arguments of a workout, in parameter order. */
  function Fields(w: Workout): (data: seq<real>)
    ensures |data| == Arity(Code(w))
  {
    match w
    case Running(a, d, wt) => [a, d, wt]
    case SportsWalking(a, d, wt, h) => [a, d, wt, h]
    case Swimming(a, d, wt, lp, cp) => [a, d, wt, lp, cp]
  }

  /** `read_package`: an unknown code fails before the data is looked at; a
      known code with the wrong number of values fails; otherwise the values
      are bound by position and a fresh object is built. */
  function ReadPackage(code: string, data: seq<real>): (r: Result<Training, WorkoutError>)
    ensures !KnownCode(code) ==> r == Err(UnknownWorkoutType(code))
    ensures KnownCode(code) && |data| != Arity(code) ==> r == Err(ArityMismatch(Arity(code), |data|))
    ensures r.Ok? <==> KnownCode(code) && |data| == Arity(code)
    ensures r.Ok? ==> r.value == New(r.value.workout)
    ensures r.Ok? ==> Code(r.value.workout) == code && Fields(r.value.workout) == data
  {
    if !KnownCode(code) then Err(UnknownWorkoutType(code))
    else if |data| != Arity(code) then Err(ArityMismatch(Arity(code), |data|))
    else if code == "SWM" then Ok(New(Swimming(data[0], data[1], data[2], data[3], data[4])))
    else if code == "RUN" then Ok(New(Running(data[0], data[1], data[2])))
    else Ok(New(SportsWalking(data[0], data[1], data[2], data[3])))
  }

  /** Reading back a workout's own code and fields rebuilds that workout. */
  lemma ReadPackageRoundTrip(w: Workout)
    ensures ReadPackage(Code(w), Fields(w)) == Ok(New(w))
  {
  }

  /** The code alone decides the class: each code yields its own variant. */
  lemma ReadPackageVariant(code: string, data: seq<real>)
    requires ReadPackage(code, data).Ok?
    ensures code == "SWM" <==> ReadPackage(code, data).value.workout.Swimming?
    ensures code == "RUN" <==> ReadPackage(code, data).value.workout.Running?
    ensures code == "WLK" <==> ReadPackage(code, data).value.workout.SportsWalking?
  {
  }

  /** The exception a failing package raises: the lookup's KeyError first,
      then the constructor's TypeError, then a ZeroDivisionError. */
  function ReportError(code: string, data: seq<real>): WorkoutError
  {
    if !KnownCode(code) then UnknownWorkoutType(code)
    else if |data| != Arity(code) then ArityMismatch(Arity(code), |data|)
    else ZeroDivision
  }

  /** One package through `read_package` and `show_training_info`, stopping
      at the first error; the message is what would be printed. */
  function Report(code: string, data: seq<real>): (r: Result<InfoMessage, WorkoutError>)
    ensures r.Ok? <==> KnownCode(code) && |data| == Arity(code)
                       && Computable(ReadPackage(code, data).value.workout)
    ensures r.Err? ==> r.error == ReportError(code, data)
    ensures r.Ok? ==> var w := ReadPackage(code, data).value.workout;
                      r.value == InfoMessage(TrainingType(w), w.duration, Distance(w),
                                             MeanSpeed(w), Calories(w))
  {
    var t := ReadPackage(code, data);
    if t.Err? then Err(t.error)
    else
      var shown := ShowTrainingInfo(t.value);
      if shown.Err? then Err(shown.error) else Ok(shown.value.message)
  }

  /** The script's loop over its packages: each is read and reported in turn,
      and the first error ends the whole run, as an uncaught exception does.
      The messages are those of the packages before the failing one. */
  method ReportAll(packages: seq<(string, seq<real>)>)
    returns (messages: seq<InfoMessage>, failure: Option<WorkoutError>)
    ensures |messages| <= |packages|
    ensures forall i :: 0 <= i < |messages| ==>
              Report(packages[i].0, packages[i].1) == Ok(messages[i])
    ensures failure.None? <==> |messages| == |packages|
    ensures failure.Some? ==>
              Report(packages[|messages|].0, packages[|messages|].1) == Err(failure.value)
    ensures failure.Some? ==>
              failure.value == ReportError(packages[|messages|].0, packages[|messages|].1)
  {
    messages := [];
    failure := None;
    var i := 0;
    while i < |packages|
      invariant 0 <= i <= |packages|
      invariant |messages| == i
      invariant forall k :: 0 <= k < i ==> Report(packages[k].0, packages[k].1) == Ok(messages[k])
    {
      var r := Report(packages[i].0, packages[i].1);
      if r.Err? {
        failure := Some(r.error);
        return;
      }
      messages := messages + [r.value];
      i := i + 1;
    }
  }
}
