# Fitness tracker calculator, modelled in Dafny

`homework.py` turns raw sensor readings into workout metrics. A package is a
three-letter code (`SWM`, `RUN`, `WLK`) and a list of positional values. The
dispatcher `read_package` builds a `Swimming`, `Running` or `SportsWalking`
workout from it. `show_training_info` then collects the class name, duration,
distance (km), mean speed (km/h) and calories into an `InfoMessage`.

The model has three modules:

- `Training` (`training.dfy`): the workout kinds as one datatype `Workout`,
  whose constructors are the three subclasses with their constructor
  parameters in order. It holds every constant of the classes, `Distance`,
  `MeanSpeed` (with Swimming's override), `SpentCalories` (one formula per
  subclass) and `ShowTrainingInfo`. Each subclass's calories are proved equal
  to a closed form in which the mean speed is replaced by distance over
  duration. Lemmas state the rest: speed times duration gives the distance
  back, calories are proportional to weight and non-negative, and they grow
  with the step or lap count.
- `Packages` (`packages.dfy`): `TRAIN_TYPES` as a map from code to class, and
  `ReadPackage` as a function returning `Ok(workout)` or an `Error`. The
  central property is a round trip: a workout's own code and values read
  back to that workout, and a successful read gives back its code and values.
- `Samples` (`samples.dfy`): the driver's three packages, read and summarised
  end to end, plus an unknown code and a short list.

Every quantity is an exact `real`. The model states the formulas as written,
not the values Python's binary floating point produces.

`read_package` fails in two ways. It raises ValueError for a code outside
`TRAIN_TYPES` (homework.py:148-149). It raises TypeError when `*data` does not
fit the constructor of the class (homework.py:150). `Error` has one
constructor for each.

## Model

| member | source | states |
|---|---|---|
| `Training.Distance` | homework.py:39-41 | the distance in km, times 1000, is the action count times the step length: 0.65 m for Running and SportsWalking, 1.38 m for Swimming; it is non-negative for a non-negative count |
| `Training.PoolDistance` | homework.py:124-127 | Swimming's numerator: the pool km, times 1000, is pool length times lap count |
| `Training.MeanSpeed` | homework.py:43-45 | for Running and SportsWalking, speed times duration is the distance; for Swimming, speed times duration times 1000 is pool length times lap count; a zero duration is excluded |
| `Training.ShowTrainingInfo` | homework.py:52-60 | the summary carries the class name, the input duration and the distance, speed and calories getters of the same workout; its speed times its duration is the distance the speed came from |
| `Training.TypeNameIdentifiesKind` | homework.py:55 | two workouts report the same class name exactly when they are the same subclass |
| `Training.WalkingSharesRunningMetrics` | homework.py:39-45 | SportsWalking inherits the step length and both getters, so a walk has the distance and speed of a run with the same count and duration |
| `Training.DistanceAdditive` | homework.py:39-41 | splitting the action count into two parts splits the distance the same way |
| `Training.SwimmingSpeedIgnoresAction` | homework.py:124-127 | Swimming's speed does not depend on the stroke count, while its distance does |
| `Training.SpeedMonotoneInSteps` | homework.py:43-45 | at a fixed positive duration, more steps never give a lower running or walking speed |
| `Training.RunningCalories` | homework.py:69-76 | Running calories, with the speed replaced by distance over duration, equal (18 * km + 1.79 * hours) * weight * 60 / 1000 |
| `Training.RunningFormula` | homework.py:69-76 | when speed * hours is the distance, the running formula on the speed equals (18 * km + 1.79 * hours) * weight * 60 / 1000 |
| `Training.WalkingCalories` | homework.py:96-104 | SportsWalking calories, with the speed replaced by distance over duration, equal weight * 60 * (0.035 * hours + 0.029 * 100 * (0.278 * km)^2 / (height * hours)) |
| `Training.WalkingFormula` | homework.py:96-104 | when speed * hours is the distance, the walking formula on the speed (m/s, height in metres, minutes) equals the distance form above |
| `Training.SwimmingCalories` | homework.py:129-135 | Swimming calories, with the speed replaced by pool distance over duration, equal 2 * weight * (pool km + 1.1 * hours) |
| `Training.SpentCalories` | homework.py:69-135 | the dispatched `get_spent_calories` gives, for each subclass, that subclass's distance form: Running's, SportsWalking's and Swimming's above |
| `Training.CaloriesProportionalToWeight` | homework.py:69-135 | scaling the weight by k scales every subclass's calories by k |
| `Training.CaloriesNonNegative` | homework.py:69-135 | with no negative input, a positive duration and a positive height, every formula is defined and non-negative |
| `Training.RunningCaloriesMonotoneInSteps` | homework.py:69-76 | more steps at the same duration and weight never burn fewer running calories |
| `Training.WalkingCaloriesMonotoneInSteps` | homework.py:96-104 | more steps at the same duration, weight and height never burn fewer walking calories |
| `Training.SwimmingCaloriesMonotoneInLaps` | homework.py:129-135 | more pool lengths at the same duration and weight never burn fewer swimming calories |
| `Packages.Code` | homework.py:138-142 | the code chosen for a class is a key of the table that maps back to that class |
| `Packages.Fields` | homework.py:30-122 | a workout's positional values are as many as its class's constructor takes (3, 4 or 5) |
| `Packages.Instantiate` | homework.py:150 | calling a class with the values succeeds exactly when their number matches; on success the workout is of that class and its values are the list; otherwise the error names the expected and given counts |
| `Packages.ReadPackage` | homework.py:145-150 | an unknown code fails naming the code; a read succeeds exactly for a known code with a list of that class's length; a success gives back the code and the values |
| `Packages.KnownCodes` | homework.py:138-142 | the table's keys are exactly SWM, RUN and WLK, and each key is its class's code |
| `Packages.UnknownCodeFails` | homework.py:148-149 | any code other than SWM, RUN or WLK is refused, whatever the values |
| `Packages.WrongCountFails` | homework.py:150 | a known code with a list whose length is not 5, 3 or 4 respectively fails with a count mismatch |
| `Packages.ReadPackageRoundTrip` | homework.py:145-150 | reading a workout's own code and values rebuilds that workout |
| `Packages.EveryWorkoutIsReadable` | homework.py:138-150 | every Running, SportsWalking or Swimming workout is the result of reading some package |
| `Packages.ReadPackageInjective` | homework.py:145-150 | two packages that read to the same workout are the same code and list |
| `Packages.ReadPackageKind` | homework.py:138-142 | a successful read is Swimming for SWM, Running for RUN and SportsWalking for WLK |
| `Samples.SwimmingSample` | homework.py:161 | SWM [720, 1, 80, 25, 40] reads to that swim and gives distance 0.9936, speed 1, 336 kcal |
| `Samples.RunningSample` | homework.py:162 | RUN [15000, 1, 75] reads to that run and gives distance 9.75, speed 9.75, 797.805 kcal |
| `Samples.WalkingSample` | homework.py:163 | WLK [9000, 1, 75, 180] reads to that walk and gives distance 5.85, speed 5.85, 349.251747525 kcal |
| `Samples.UnknownSample` | homework.py:148-149 | the code XYZ is refused as unknown |
| `Samples.ShortPackageSample` | homework.py:150 | three values under WLK fail with expected 4, given 3 |

## Left out

- `main` and the `__main__` loop (homework.py:153-168) print to the console. Only their sample packages are kept, as the `Samples` lemmas.
- `InfoMessage.get_message` (homework.py:14-20) formats each number to three decimals. Float-to-text formatting and rounding are not modelled, so `InfoMessage` is a plain record.
- IEEE-754 arithmetic. Every value is an exact `real`, so the model gives the exact result of each formula, not Python's rounded float.
- `self.__class__.__name__` (homework.py:55) is reflective. Each constructor maps to a fixed name string instead.
- The abstract `Training.get_spent_calories` raising NotImplementedError (homework.py:47-50). The dispatcher never builds a bare `Training`, so `Workout` has no base case.
- ZeroDivisionError, raised by Python for a zero duration and, in SportsWalking, a zero height, is not caught by the program. The model makes it a precondition (`Computable`: duration and height non-zero) rather than an error value. Negative values compute normally, as in Python.
- Python does not enforce the type annotations. Every positional value is a `real`, including the `int`-annotated action count, and a list holding a non-number is outside the model.
- The text of the ValueError and TypeError messages is not modelled; only the kind of error and, for a count mismatch, the expected and given counts.
- Calling the calculator twice on the same inputs gives the same output because every member is a function. No separate lemma states this.
