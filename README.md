# Fitness tracker: workout statistics in Dafny

This project models the calculation layer of a fitness tracker. A base
training turns raw sensor readings into three statistics: distance in km,
mean speed in km/h and spent calories. It is specialised by three variants:

- running: inherits distance and speed, and has its own calorie formula;
- sports walking: adds the walker's height, and recomputes speed and calories;
- swimming: uses a stroke length of 1.38 instead of 0.65, takes its speed from
  the pool length and pool count, and has its own calorie formula.

A dispatcher, `read_package`, maps the codes `SWM`, `RUN` and `WLK` to the
variant constructors. It binds the package's parameter list to the
constructor's positional parameters.

Modules:

- `Workouts` (workouts.dfy) holds one datatype with a constructor per
  variant. Each method of the source is a function, and the source's virtual
  dispatch is a `match`. Every quantity is an exact `real`. The source uses
  a method without calling it at lines 95 and 132, and rebinds a method's
  name to its result at lines 125 and 132. In those places these functions
  use the value the call would return.
- `Dispatch` (dispatch.dfy) models `read_package` as a `Result`. An unknown
  code fails as the dictionary lookup does. A wrong parameter count fails as
  positional binding does.
- `Instances` (instances.dfy) models the sports-walking and swimming objects
  as classes, because their methods store results on the instance. These
  classes follow the code exactly as written, including the TypeErrors listed
  under "## Findings".
- `Wrappers` (wrappers.dfy) holds `Option` and `Result`.

The constants are kept exactly as coded, even where they differ from the
usual textbook formulas:

- Running calories use the weight as given, with no division by 1000. The
  package `RUN [15000, 1, 75]` therefore burns 797805 kcal, not 797.4075.
- Sports walking divides the speed by `M_IN_KM`, not by 3.6.
- Sports walking uses the height as given.

## Model

| member | source | states |
|---|---|---|
| `Workouts.BaseDistance` | homework.py:41-44 | the distance times M_IN_KM is the action count times the step length the instance sees |
| `Workouts.SwimmingDistance` | homework.py:121-122 | swimming's overriding get_distance, read with swimming's own LEN_STEP, is action * 1.38 / 1000, and differs from the 0.65-step distance exactly when action is non-zero |
| `Workouts.BaseMeanSpeed` | homework.py:46-49 | the inherited mean speed times the duration is the distance |
| `Workouts.WalkingMeanSpeed` | homework.py:89-92 | walking's overridden mean speed (divide by duration, then by M_IN_KM) equals the base distance / duration |
| `Workouts.SwimmingMeanSpeed` | homework.py:124-129 | swimming's mean speed times the duration times 1000 is pool length times pool count |
| `Workouts.RunningCalories` | homework.py:62-72 | running calories in closed form: (18 * 0.65 * action / 1000 + 1.79 * duration) * weight * 60, because duration cancels in the speed term |
| `Workouts.WalkingCalories` | homework.py:94-102 | walking calories, with the speed invoked, in closed form over the raw readings: 0.035 * weight * duration * 60 + 0.029 * weight * 60 * (action * 0.65)^2 / (10^12 * duration * height), so the speed is divided by M_IN_KM and the height is used as given |
| `Workouts.SwimmingCalories` | homework.py:131-137 | swimming calories, with the speed invoked, in closed form: (pool length * pool count / 1000 + 1.1 * duration) * 2 * weight |
| `Workouts.StepDistance` | homework.py:28-44 | running and walking distance is action * 0.65 / 1000 |
| `Workouts.SwimmingDistanceOwnStep` | homework.py:107-122 | swimming distance is action * 1.38 / 1000, equals the inherited formula read with swimming's step, and differs from the 0.65 formula exactly when action is non-zero |
| `Workouts.DistanceProportional` | homework.py:41-44 | for every variant, scaling the action count by k scales the distance by k |
| `Workouts.StepMeanSpeed` | homework.py:46-49 | for running and walking, speed times duration is the distance, and speed is get_distance() / duration |
| `Workouts.WalkingOverrideMatchesBase` | homework.py:89-92 | the walking speed equals the inherited running speed for the same readings, and both equal action * 0.65 / 1000 / duration |
| `Workouts.SwimmingSpeedIgnoresAction` | homework.py:124-129 | swimming speed is pool length * pool count / 1000 / duration and does not change with the stroke count |
| `Workouts.RunningCaloriesNonNegative` | homework.py:62-72 | running calories are (18 * speed + 1.79) * weight * duration * 60, and are non-negative for action, weight >= 0 and duration > 0 |
| `Workouts.SwimmingCaloriesNonNegative` | homework.py:131-137 | swimming calories are (speed + 1.1) * 2 * weight * duration, and are non-negative for non-negative pool figures and weight and positive duration |
| `Workouts.WalkingCaloriesNonNegative` | homework.py:94-102 | walking calories are at least 0.035 * weight * duration * 60, which is non-negative |
| `Dispatch.ReadPackage` | homework.py:140-145 | an unknown code fails with UnknownWorkoutType, and only then; success exactly for SWM/5, RUN/3 and WLK/4 parameters; the code selects the variant; the first three parameters are action, duration and weight |
| `Dispatch.ReadPackageOfPackage` | homework.py:140-145 | every training is read back from its own package |
| `Dispatch.PackageOfReadPackage` | homework.py:140-145 | a successfully read package is exactly the package of the training it yields, so the dispatcher never drops, reorders or invents parameters |
| `Dispatch.ArityMismatchReported` | homework.py:140-145 | a known code with the wrong number of parameters fails with the expected and the given count |
| `Dispatch.SwimmingPackageExample` | homework.py:156 | SWM [720, 1, 80, 25, 40] gives 0.9936 km, 1.0 km/h and 336 kcal |
| `Dispatch.RunningPackageExample` | homework.py:157 | RUN [15000, 1, 75] gives 9.75 km, 9.75 km/h and 797805 kcal |
| `Dispatch.WalkingPackageExample` | homework.py:158 | WLK [9000, 1, 75, 180] gives 5.85 km, 5.85 km/h and 157.5000248113125 kcal with the speed invoked |
| `Dispatch.UnknownCodeExample` | homework.py:142-145 | XYZ [1, 2, 3] is an UnknownWorkoutType failure, not a default training |
| `Instances.SportsWalkingInstance.constructor` | homework.py:80-87 | the instance holds the four readings and no stored speed yet |
| `Instances.SportsWalkingInstance.GetMeanSpeed` | homework.py:89-92 | returns the walking mean speed and stores it as `mean_speed`; repeatable |
| `Instances.SportsWalkingInstance.GetSpentCalories` | homework.py:94-102 | as written, always a TypeError (a bound method divided by a number), and nothing is stored |
| `Instances.SwimmingInstance.constructor` | homework.py:111-119 | the instance holds the five readings and neither method is shadowed |
| `Instances.SwimmingInstance.GetDistance` | homework.py:121-122 | returns the swimming distance, action * 1.38 / 1000, without touching the instance |
| `Instances.SwimmingInstance.GetMeanSpeed` | homework.py:124-129 | the first call returns the swimming speed and shadows the method with it; any later call is a TypeError |
| `Instances.SwimmingInstance.GetSpentCalories` | homework.py:131-137 | a TypeError unless get_mean_speed already shadowed itself; otherwise it returns the swimming calories and shadows itself, so a second call is a TypeError |
| `Instances.WalkingCaloriesRaise` | homework.py:158 | for WLK [9000, 1, 75, 180] the speed is 5.85 but the calories raise a TypeError |
| `Instances.SwimmingCaloriesBeforeSpeed` | homework.py:156 | for SWM [720, 1, 80, 25, 40], calories asked for before the speed raise a TypeError |
| `Instances.SwimmingSecondCalls` | homework.py:156 | for SWM [720, 1, 80, 25, 40], speed then calories give 1.0 and 336 once; asking again for either raises a TypeError |

## Left out

- `InfoMessage` and `get_message` (homework.py:1-23): string formatting with 3-decimal rounding. Line 18 is a Python 2 `print` statement and a syntax error under Python 3. The f-strings at lines 18-22, and `super().__init__` at lines 86 and 117, need Python 3. So the file as written parses under no Python version, and none of its code can run. Everything this model calls "as written" describes the file with line 18 repaired to a Python 3 form.
- The driver never reaches a calorie method: `main` calls `show_training_info` (homework.py:150), which raises first. The TypeErrors under "## Findings" concern direct calls to the methods.
- `Training.show_training_info` (homework.py:55-57): it calls `InfoMessage()` with no arguments, so it always raises and yields no message.
- `Training.get_spent_calories` (homework.py:51-53): a stub that returns `None`. `read_package` never builds a plain training, so the datatype has no base constructor and no base calorie formula.
- `main` and the driver loop (homework.py:148-163): console output over a fixed list. Its three packages appear as the example lemmas instead.
- Floating point: all quantities are exact reals. IEEE rounding, NaN and infinities are not modelled.
- Division by zero: Python raises ZeroDivisionError when duration is 0, and when height is 0 in walking calories. The model makes both non-zero divisors preconditions instead of error results.
- Dynamic typing: every parameter is a `real`. The `int` annotations are not enforced by Python. Non-numeric values in a package are not modelled.
- Stored results: `SportsWalking.get_spent_calories` would store `self.spent_calories` (homework.py:96), but it raises first, so that attribute is never set. The pure functions in `Workouts` return values and store nothing.

## Findings

| source | as written | input that shows it | evidently intended | confidence | as-written member | corrected member |
|---|---|---|---|---|---|---|
| homework.py:95 | `self.get_mean_speed / self.M_IN_KM` divides the bound method, not its value | WLK [9000, 1, 75, 180]: get_spent_calories raises TypeError (the same happens for every walking training) | divide the invoked speed, `self.get_mean_speed() / self.M_IN_KM` | high; not executed | `Instances.SportsWalkingInstance.GetSpentCalories` | `Workouts.WalkingCalories` |
| homework.py:125-129 | the speed is assigned to `self.get_mean_speed`, so the number shadows the method | SWM [720, 1, 80, 25, 40]: a second get_mean_speed() raises TypeError | every call returns pool length * pool count / 1000 / duration | high; not executed | `Instances.SwimmingInstance.GetMeanSpeed` | `Workouts.SwimmingMeanSpeed` |
| homework.py:131-137 | uses `self.get_mean_speed` without calling it, and assigns the result to `self.get_spent_calories` | SWM [720, 1, 80, 25, 40]: get_spent_calories() on a fresh instance raises TypeError; after get_mean_speed() a second call raises TypeError | every call returns (speed + 1.1) * 2 * weight * duration with the speed invoked | high; not executed | `Instances.SwimmingInstance.GetSpentCalories` | `Workouts.SwimmingCalories` |
