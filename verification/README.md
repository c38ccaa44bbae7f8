# Workout calculator — Dafny model

A model of the fitness-tracker calculator in `homework.py`. A package of
sensor readings — a workout code (`SWM`, `RUN`, `WLK`) and a list of numbers —
is turned into a workout object (`read_package`). That object computes its
distance, its mean speed and the calories spent, and reports them in an
`InfoMessage` (`show_training_info`).

The model has four modules:

- `Workouts` (`workouts.dfy`): the class hierarchy `Training` / `Running` /
  `SportsWalking` / `Swimming` as one closed datatype `Workout`, the class
  constants, and pure reference formulas `Distance`, `MeanSpeed` and
  `Calories` that match on the variant. This is where Swimming's overridden
  step length (1.38 instead of 0.65) and its overridden, pool-based mean
  speed show up. Lemmas here state what the formulas mean: the inverse of the
  distance scaling, speed × duration, closed forms of the calorie formulas,
  and non-negativity.
- `Session` (`session.dfy`): the object with its cached attributes
  `distance_km`, `mean_speed`, `calories` and `info` as `Option` fields. Each
  method (`GetDistance`, `GetMeanSpeed`, `GetSpentCalories`,
  `ShowTrainingInfo`) reads the cached attributes exactly where the Python
  code does and returns the updated object. A method that reads an attribute
  `requires` that it has been set, so the call order distance → speed →
  calories becomes a precondition. The contracts prove that what the methods
  compute from the caches equals the reference formulas, and that calling
  them again changes nothing.
- `Dispatch` (`dispatch.dfy`): `ReadPackage` with the code table and the
  positional binding, its inverse (`Code`, `Fields`) and the round trip.
  `Report` chains `ReadPackage` and `ShowTrainingInfo`, and `ReportAll`
  runs a list of packages until the first error.
- `Samples` (`samples.dfy`): the three sample packages of the script and
  three failing ones, each worked out exactly.

Errors are values of `Session.WorkoutError`:

- `UnknownWorkoutType` is the `KeyError` of the lookup table.
- `ArityMismatch` is the `TypeError` raised when `*data` has the wrong length.
- `ZeroDivision` is the `ZeroDivisionError` from a zero duration or, for
  walking, a zero height.

An unknown code is reported before the length of the data is looked at, as
in the code. All arithmetic is over exact `real`s, and every data field is a
`real`: the constructors' type hints are not enforced.

Swimming's distance uses the swimming class's own `LEN_STEP` of 1.38
(homework.py:110), so the sample `SWM [720, 1, 80, 25, 40]` gives 0.9936 km.
The running sample `RUN [15000, 1, 75]` spends exactly 797.805 kcal.

## Model

| member | source | states |
|---|---|---|
| Workouts.DistanceRecoversAction | homework.py:39-42 | the distance is the action count scaled by step length / 1000, so multiplying back recovers the count exactly |
| Workouts.SwimmingDistanceUsesOwnStep | homework.py:108-110 | Swimming's distance uses its overriding step length 1.38, and differs from the inherited 0.65 formula exactly when the stroke count is non-zero |
| Workouts.BaseDistanceShared | homework.py:26-42 | Running and SportsWalking inherit the same distance, count × 0.65 / 1000, independent of their other fields |
| Workouts.BaseSpeedCoversDistance | homework.py:44-47 | for Running and SportsWalking, mean speed × duration equals the distance |
| Workouts.SwimmingSpeedCoversPool | homework.py:125-128 | Swimming's mean speed × duration × 1000 equals pool length × lap count |
| Workouts.SwimmingSpeedIgnoresAction | homework.py:125-128 | Swimming's mean speed does not depend on the stroke count, hence not on the distance |
| Workouts.SwimmingSpeedFromDistanceIff | homework.py:125-128 | Swimming's mean speed equals distance / duration if and only if pool length × laps equals strokes × 1.38 |
| Workouts.SwimmingSpeedNotFromDistance | homework.py:125-128 | for the sample pool session the swimming speed is not distance / duration, unlike the inherited formula |
| Workouts.RunningCaloriesClosedForm | homework.py:72-78 | running calories equal 0.06 · weight · (0.0117 · steps + 1.79 · hours): the duration cancels from the speed term |
| Workouts.SwimmingCaloriesClosedForm | homework.py:130-135 | swimming calories equal 2 · weight · (pool km + 1.1 · hours) |
| Workouts.PhysicalResultsNonNegative | homework.py:39-135 | with non-negative fields and positive duration (and height) the distance, speed and calories of every variant are non-negative |
| Session.New | homework.py:30-37 | a new object holds the constructor fields and no computed attribute, and so is consistent with the formulas |
| Session.GetDistance | homework.py:39-42 | `get_distance` sets only `distance_km`, to count × step length / 1000, which makes the speed computable |
| Session.GetMeanSpeed | homework.py:44-47 | `get_mean_speed` (base and Swimming override, lines 125-128) needs `distance_km` except for Swimming, fails exactly on a zero duration, sets only `mean_speed`, and from a consistent `distance_km` yields the reference speed |
| Session.GetSpentCalories | homework.py:66-135 | each variant's `get_spent_calories` needs the cached attribute it reads, fails only on a zero divisor, changes no field it reads except that Running sets `mean_speed` to `distance_km` / duration through its call to `get_mean_speed` (line 75), and from consistent caches yields the reference calories |
| Session.ShowTrainingInfo | homework.py:53-63 | distance, speed and calories in that order give the message (class name, duration, distance, speed, calories) with the reference values whatever the object's previous caches, and leaves `distance_km`, `mean_speed`, `calories` and `info` set to those values; it fails, with a division by zero, exactly on a zero divisor |
| Session.SpentCaloriesIdempotent | homework.py:55-62 | the second `get_spent_calories` returns the same value as the first and leaves the object unchanged |
| Session.ShowTrainingInfoIdempotent | homework.py:53-63 | showing the info twice gives the same message and object |
| Dispatch.ReadPackage | homework.py:138-143 | unknown code → KeyError before any arity check; wrong length → TypeError; otherwise a fresh object whose code and positional fields are the input |
| Dispatch.ReadPackageRoundTrip | homework.py:138-143 | reading a workout's own code and constructor fields rebuilds that workout |
| Dispatch.ReadPackageVariant | homework.py:140-142 | `SWM`, `RUN` and `WLK` select Swimming, Running and SportsWalking respectively, and only those |
| Dispatch.Report | homework.py:146-149 | one package succeeds exactly when its code is known, its length right and no divisor zero, and then reports the reference formulas of the bound workout; a failing package raises the unknown-type error, else the arity error, else the division by zero |
| Dispatch.ReportAll | homework.py:159-161 | the packages are reported in order; the run stops at the first failing package, whose error (unknown type, arity or zero division, in that priority) is returned, and the messages are exactly the reports of the packages before it |
| Samples.SwimmingSample | homework.py:154 | `SWM [720, 1, 80, 25, 40]` reports Swimming, 1 h, 0.9936 km, 1 km/h, 336 kcal |
| Samples.RunningSample | homework.py:155 | `RUN [15000, 1, 75]` reports Running, 1 h, 9.75 km, 9.75 km/h, 797.805 kcal |
| Samples.WalkingSample | homework.py:156 | `WLK [9000, 1, 75, 180]` reports SportsWalking, 1 h, 5.85 km, 5.85 km/h, 349.251747525 kcal |
| Samples.UnknownCodeSample | homework.py:140-143 | an unknown code `ERR` fails with the unknown-type error |
| Samples.ShortDataSample | homework.py:143 | `RUN` with two values fails with an arity error (3 expected, 2 given) |
| Samples.ZeroDurationSample | homework.py:46 | a zero duration fails with a division by zero |

## Left out

- `InfoMessage.get_message` (homework.py:16-21): rendering floats with three decimals into the message template is string formatting of IEEE floats, which exact reals do not model.
- IEEE-754 rounding and the effect of operation order: every formula is computed over exact reals. The operation order of the source is still kept.
- Float overflow and underflow are not modelled, so "fails exactly on a zero divisor" holds over exact reals only. Four float behaviours are excluded:
  - the `OverflowError` of `speed_in_ms**2` (homework.py:102);
  - the `OverflowError` of converting a huge integer `action` to a float (homework.py:41);
  - a non-zero `height` so small that `height / CM_IN_M` underflows to 0.0 and raises `ZeroDivisionError` (homework.py:100-102);
  - products that overflow silently to `inf` or `nan`.
- The `print` in `main` (homework.py:149) is I/O. `Report` is `main` without the printing, `ReportAll` is the `__main__` loop, and the script's three sample packages are lemmas.
- `self.__class__.__name__` (homework.py:37): each variant gets its class name as a fixed string.
- The base `Training.get_spent_calories`, which returns `None` (homework.py:49-51): `read_package` never builds a bare `Training`, so the datatype has no base case.
- Reading an attribute before it is set (`AttributeError` in Python) is excluded by `requires` rather than modelled as an error. `get_mean_speed` is called by `show_training_info` and by `Running.get_spent_calories` (homework.py:75), and both calls come after `get_distance`. `show_training_info` is the only caller of `get_spent_calories`, and it calls `get_mean_speed` first.
- Non-numeric data values: the data list is a sequence of reals, so the type errors Python would raise on strings and the like are not modelled.
