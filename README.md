# Fitness-tracker calculator, modelled in Dafny

The program turns a workout tag (`SWM`, `RUN`, `WLK`) and a positional list
of sensor readings into a training object, and asks that object for a summary
record: class name, duration (h), distance (km), mean speed (km/h) and
calories (kcal). A base class `Training` supplies the distance and speed
formulas and leaves calories unimplemented; `Running` and `SportsWalking` add
a calorie formula; `Swimming` also overrides distance (stroke length 1.38 m
instead of the 0.65 m step) and speed (pool length times lap count).

The model, one module per part of `homework.py`:

- `Errors` (errors.dfy): `Option`, `Result` and the four failures the program
  can raise on inputs within floating-point range: unknown tag, wrong list length, calories of the
  bare base class (carrying the class name, as the raised exception does) and
  division by zero.
- `Trainings` (trainings.dfy): the class hierarchy as the datatype `Workout`,
  one constructor per class holding what its constructor stores; the class
  constants; and the formulas as functions, the overrides as a `match`.
  All quantities are exact `real`s.
- `Summary` (summary.dfy): the record `InfoMessage` and the summary operation
  `Info`, which asks distance, speed and calories in the program's order, so
  the first that raises decides the error.
- `Instances` (instances.dfy): the training object as a class. Its readings
  are a `const`; `dist` and `speed` are the two attributes the inherited
  distance and speed methods write on every call (`None` while unset). The
  methods are proved against the functions of `Trainings` and `Summary`, and
  the attributes against `CacheAfterDistance` / `CacheAfterSpeed`.
- `Factory` (factory.dfy): the tag table as a `map`, the constructor call as
  `Construct`, and `ReadPackage`; `Build` returns a fresh object.
- `Samples` (samples.dfy): the driver's three sample packages, worked through
  exactly.

Division by zero is a `Result` error rather than a precondition: a zero
duration fails in every speed computation, and a zero height fails the walking
calories after the speed has been computed (and cached). A bare `Training`
object with a zero duration therefore reports division by zero, not "not
implemented", from its summary, and it has already cached its distance.

The exact values of the formulas on the driver's running and walking samples
are 797.805 kcal and 349.251747525 kcal.

## Model

| member | source | states |
|---|---|---|
| `Trainings.ClassName` | homework.py:47-51 | each class has its own name, `Training`, `Running`, `SportsWalking` or `Swimming`, as the error and the summary report it |
| `Trainings.StepLength` | homework.py:30-30 | the step length is positive, and differs from the base 0.65 exactly for swimming (1.38, line 107) |
| `Trainings.Distance` | homework.py:35-38 | distance in km times 1000 is the action count times the class's step length (swimming override at lines 124-126); non-negative for a non-negative count, zero exactly when the count is zero |
| `Trainings.MeanSpeed` | homework.py:40-43 | fails with division by zero exactly when the duration is zero; otherwise speed times duration is the distance, or for swimming (lines 137-141) speed times duration in metres is pool length times lap count |
| `Trainings.RunningCalories` | homework.py:71-74 | the running formula is non-negative for non-negative speed, duration and weight, and zero for a zero duration or weight |
| `Trainings.WalkingCalories` | homework.py:96-101 | needs a non-zero height; non-negative for non-negative duration and weight and positive height, zero for a zero duration or weight |
| `Trainings.SwimmingCalories` | homework.py:128-135 | non-negative for non-negative pool product and weight and positive duration |
| `Trainings.Calories` | homework.py:45-135 | the base class fails with "not implemented" naming `Training`; a concrete class succeeds exactly when the duration is non-zero and, for walking, the height is non-zero; its other failures are division by zero |
| `Trainings.BaseCaloriesNotImplemented` | homework.py:45-47 | calories of a bare base object fail with "not implemented" for every reading |
| `Trainings.MeanSpeedNonNegative` | homework.py:40-43 | for valid readings the speed exists and is non-negative |
| `Trainings.CaloriesNonNegative` | homework.py:71-135 | for valid readings of each concrete class the distance is non-negative and the speed and calories exist and are non-negative |
| `Trainings.SwimmingSpeedIgnoresAction` | homework.py:137-141 | the swimming speed is the same whatever the stroke count |
| `Trainings.SwimmingCaloriesFromMeanSpeed` | homework.py:128-141 | the inline swimming calories equal (speed + 1.1) * 2 * weight * duration with the speed method's value |
| `Trainings.LandSpeedIsBaseFormula` | homework.py:35-43 | running and walking use the base distance action * 0.65 / 1000 and the base speed distance / duration |
| `Summary.Info` | homework.py:49-55 | the summary exists exactly when the calories do; it reports the class name, the stored duration and the class's own distance, speed and calories; a zero duration fails with division by zero before the calories are asked |
| `Summary.BaseNeverSummarised` | homework.py:45-55 | a bare base object never yields a summary: division by zero for a zero duration, "not implemented" otherwise |
| `Summary.SummaryOfValidReadings` | homework.py:49-55 | for valid readings of a concrete class the summary exists, names one of the three classes and reports a positive duration and non-negative figures |
| `Instances.CacheAfterDistance` | homework.py:35-38 | the inherited distance method caches the distance and leaves the speed; the swimming override caches nothing (lines 124-126) |
| `Instances.CacheAfterSpeed` | homework.py:40-43 | the inherited speed method caches the distance, and the speed exactly when the duration is non-zero; the swimming override caches nothing (lines 137-141) |
| `Instances.TrainingObject.constructor` | homework.py:114-122 | the object stores the readings it is given and has no cached attribute |
| `Instances.TrainingObject.GetDistance` | homework.py:35-38 | returns the class's distance and leaves the attributes as `CacheAfterDistance` says |
| `Instances.TrainingObject.GetMeanSpeed` | homework.py:40-43 | returns the class's speed or its division-by-zero failure, attributes as `CacheAfterSpeed` says |
| `Instances.TrainingObject.GetSpentCalories` | homework.py:45-135 | returns the class's calories or failure; running and walking leave the attributes as one speed call does, the base and swimming leave them untouched |
| `Instances.TrainingObject.ShowTrainingInfo` | homework.py:49-55 | returns the summary of the stored readings, success or failure, and leaves the attributes as one speed call does |
| `Instances.ShowTwice` | homework.py:49-55 | two summaries of one object are equal, and leave the attributes as one does |
| `Instances.CacheAfterSpeedIdempotent` | homework.py:37-43 | a second speed call leaves the attributes unchanged |
| `Instances.CacheMatchesSummary` | homework.py:37-55 | after a successful summary of a running or walking object the attributes hold exactly the reported distance and speed |
| `Factory.Arity` | homework.py:114-119 | the constructors take 3 (running, lines 65-68), 4 (walking, lines 86-90) and 5 (swimming) readings, a different count per class |
| `Factory.Readings` | homework.py:114-119 | an object's readings in constructor order have the constructor's arity and start with action, duration and weight |
| `Factory.Construct` | homework.py:152-152 | the constructor call succeeds exactly when the list has the class's arity, otherwise fails with an arity error; the object built has that class and exactly the given readings |
| `Factory.ReadPackage` | homework.py:144-152 | an unknown tag fails with the unknown-type error whatever the list; a known tag succeeds exactly when the list length matches its class's arity (5, 3, 4), otherwise fails with the arity error; a success has the tag's class and the given readings |
| `Factory.TagOf` | homework.py:147-149 | every concrete class has a tag in the table that maps back to it |
| `Factory.PackageTable` | homework.py:147-149 | the table's tags are exactly `SWM`, `RUN`, `WLK`, building `Swimming`, `Running`, `SportsWalking` |
| `Factory.ReadPackageRoundTrip` | homework.py:144-152 | reading an object's own tag and readings rebuilds that object |
| `Factory.ReadPackageInverse` | homework.py:144-152 | a successful read is a concrete object whose tag and readings are the ones read |
| `Factory.Build` | homework.py:144-152 | fails exactly when `ReadPackage` does, with its error and no object; otherwise returns a new object holding the read readings with nothing cached |
| `Samples.SwimmingSample` | homework.py:170-170 | `SWM` [720, 1, 80, 25, 40] gives distance 0.9936, speed 1.0, calories 336.0 |
| `Samples.RunningSample` | homework.py:171-171 | `RUN` [15000, 1, 75] gives distance and speed 9.75, calories 797.805 |
| `Samples.WalkingSample` | homework.py:172-172 | `WLK` [9000, 1, 75, 180] gives distance and speed 5.85, calories 349.251747525 |
| `Samples.FactoryErrorSamples` | homework.py:151-152 | concrete unknown tags and wrong-length lists fail with the matching error |

## Left out

- `InfoMessage.get_message` (homework.py:14-19): the text template and its three-decimal rendering are presentation only.
- `main` and the driver loop (homework.py:155-177): printing and iteration over the sample list; the samples appear as lemmas.
- Floating point: every quantity is an exact `real`, so no IEEE-754 behaviour is modelled: neither rounding (the sample figures are the exact values of the formulas), nor the `OverflowError` raised when an integer reading too large for a float is multiplied at homework.py:37 or when the square at homework.py:98 overflows, nor the underflow of a subnormal height to zero at homework.py:99, which raises `ZeroDivisionError`; in each of these cases the model returns a value.
- Integer readings: the action count and pool readings are `int` in the program's annotations; the model keeps every reading as a `real`, since the list carries them together.
- Exception classes: `KeyError`, `TypeError`, `ZeroDivisionError` and `NotImplementedError` are the four `Error` cases; their messages (other than the class name of the last) are not modelled.
- Inheritance: the four classes are the constructors of one datatype and overriding is a `match`, not a class hierarchy; constructing a bare `Training` from a list is not part of the table and so is not in `Factory`.
- Generated dataclass behaviour (equality, representation, the default-valued `LEN_STEP` field of `Swimming`): none of it is reached by the formulas, since each class defines its own constructor.
- Arguments of the wrong type in the reading list (non-numeric values) cannot be written in the model, whose list is a sequence of reals.
