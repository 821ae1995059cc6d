# Fitness tracker statistics, modelled in Dafny

This project models the calculation layer of `homework.py`, a small fitness
tracker. The module takes raw sensor readings for a workout and derives three
quantities from them: the distance in kilometres, the mean speed in km/h and
the calories burned. It then collects them in an `InfoMessage` record.

- `Training` is the base class. `Running`, `SportsWalking` and `Swimming`
  extend it. Each subclass supplies its own calorie formula. `Swimming` also
  overrides the step length and the speed formula.
- `read_package` turns a workout tag (`RUN`, `WLK`, `SWM`) and a flat list of
  sensor values into an instance of the matching class, by positional
  construction.
- `show_training_info` assembles the summary record.

The source is pure: fields are set once in `__init__`, and every getter is a
single expression. The model therefore uses datatypes and functions, with
lemmas beside them:

- `Homework` (`homework.dfy`) holds the model. `Training` has one constructor
  per class, plus `Base` for the base class. `Kind` stands for the classes
  themselves, which `read_package`'s table maps tags to. The getters, the
  summary and the dispatcher are functions.
- Every exception this layer raises on numeric input, apart from float
  overflow, is an `Err` of `Result` (`results.dfy`). That covers `NotImplementedError` from the base
  class, `ValueError` for an unknown tag, `TypeError` for a wrong number of
  positional values, and `ZeroDivisionError` from `/` on a zero duration or
  from `//` on a zero height. No function requires its caller to avoid these.
- `TrainingFacts` (`training_facts.dfy`) proves the formula properties and the
  dispatcher properties for all inputs.
- `Packages` (`packages.dfy`) works through the three packages of the
  module's demo run, an unknown tag and a wrong arity.

Points of the code's behaviour worth noting:

- `RUN [15000, 1, 75]` gives (18 · 9.75 − 20) · 75 / 1000 · 60 = 699.75 kcal
  (homework.py:78-82), which `Packages.RunningPackage` proves.
- A wrong number of values raises `TypeError` (homework.py:153). The model
  records it as `TypeError(className, expected, given)`: the class that was
  called, its parameter count without `self`, and the number of values given.
- `show_training_info` evaluates its arguments left to right, so the speed is
  computed before the calories. A base-class instance with a zero duration
  therefore raises `ZeroDivisionError`, not `NotImplementedError`. The
  contract of `Homework.ShowTrainingInfo` states this order.
- The `NotImplementedError` message has no space between "наследника" and the
  class name, because two f-strings are joined. The model keeps the message
  as written.

## Model

| member | source | states |
|---|---|---|
| `Homework.Fields` | homework.py:35-42 | an instance's constructor arguments, in declaration order, number exactly the arity of its class, and the first three are action, duration and weight |
| `Homework.Instantiate` | homework.py:153 | calling a class with positional values succeeds if and only if the count matches its `__init__`; the result has that class and gives back exactly those values; otherwise the `TypeError` records the class that was called, its parameter count without `self` and the number of values given |
| `Homework.TrueDiv` | homework.py:50 | float `/` succeeds if and only if the divisor is non-zero, and the quotient times the divisor is the dividend; a zero divisor raises `ZeroDivisionError` |
| `Homework.FloorDiv` | homework.py:104 | float `//` succeeds if and only if the divisor is non-zero; the result is a whole number `f` with `f <= x / y < f + 1`; a zero divisor raises `ZeroDivisionError` |
| `Homework.GetMeanSpeed` | homework.py:48-50 | the mean speed exists if and only if the duration is non-zero; speed times duration is the step distance, except for Swimming, where speed times duration times 1000 is pool length times pool count; a zero duration raises `ZeroDivisionError` |
| `Homework.NotImplementedMessage` | homework.py:54-57 | the base-class error message contains the class name |
| `Homework.GetSpentCalories` | homework.py:52-141 | calories exist if and only if the instance is not the base class, the duration is non-zero and, for walking, the height is non-zero; `NotImplementedError` is raised exactly for the base class, and its message names the class; every other failure is `ZeroDivisionError`, from `/` when the duration is zero and from `//` otherwise |
| `Homework.ShowTrainingInfo` | homework.py:59-67 | a record is produced if and only if all four values can be computed; it carries the class name, the unchanged duration, `get_distance()`, `get_mean_speed()` and `get_spent_calories()`; otherwise the error is the speed's `ZeroDivisionError` when the duration is zero, or the calorie error, so no partial record exists |
| `Homework.InvalidTagMessage` | homework.py:152 | the unknown-tag message contains the tag verbatim |
| `Homework.ReadPackage` | homework.py:144-153 | succeeds if and only if the tag is in the table and the number of values matches that class's arity; an unknown tag raises `ValueError` whose message contains the tag; a known tag with the wrong count raises `TypeError`; on success the instance has the table's class, its constructor arguments are exactly `data`, and it is never the base class |
| `TrainingFacts.DistancePerAction` | homework.py:44-46 | distance is action × 0.00065 km (action × 0.00138 km for Swimming, whose `LEN_STEP` is 1.38), and it is non-negative for a non-negative action |
| `TrainingFacts.MeanSpeedFromDistance` | homework.py:48-50 | for Training, Running and SportsWalking with a non-zero duration, the mean speed is `get_distance() / duration` |
| `TrainingFacts.SwimmingSpeedValue` | homework.py:128-133 | Swimming's speed is `length_pool * count_pool / 1000 / duration` |
| `TrainingFacts.SwimmingIgnoresAction` | homework.py:128-141 | two Swimming instances that differ only in `action` have the same speed result and the same calorie result |
| `TrainingFacts.SwimmingCaloriesClosedForm` | homework.py:135-141 | for a non-zero duration, Swimming calories exist and equal (length_pool · count_pool / 1000 / duration + 1.1) · 2 · weight |
| `TrainingFacts.RunningCaloriesClosedForm` | homework.py:76-82 | Running calories exist for every non-zero duration and equal 1.08 · weight · distance − 1.2 · weight · duration, without reference to the speed |
| `TrainingFacts.WalkingCaloriesFloorForm` | homework.py:102-107 | for a non-zero height, walking calories are 2.1 · weight · duration + f · 1.74 · weight · duration, where `f` is `speed^2 // height` |
| `TrainingFacts.WalkingFloorTermVanishes` | homework.py:100-107 | when speed² < height, the floor term is 0 and walking calories are 0.035 · weight · duration · 60 |
| `TrainingFacts.WalkingCaloriesBetween` | homework.py:102-107 | for positive height and positive weight × duration, the floor puts walking calories strictly above the unfloored formula minus 1.74 · weight · duration, and at most the unfloored formula |
| `TrainingFacts.WalkingCaloriesBounds` | homework.py:100-107 | the same bounds, stated for a SportsWalking instance with positive duration, height and weight |
| `TrainingFacts.BaseHasNoCalories` | homework.py:52-67 | the base class's calories always fail with `NotImplementedError`, whose message contains "Training", and its `show_training_info` always fails |
| `TrainingFacts.ReadPackageDispatch` | homework.py:146-153 | `read_package` succeeds exactly for RUN with 3 values, WLK with 4 and SWM with 5, and builds Running, SportsWalking and Swimming respectively |
| `TrainingFacts.Tag` | homework.py:146-150 | each non-base class has a tag in the table that maps back to it |
| `TrainingFacts.ReadPackageRoundTrip` | homework.py:153 | every Running, SportsWalking or Swimming instance is rebuilt exactly by `read_package` from its tag and its constructor arguments |
| `TrainingFacts.PackageSummary` | homework.py:144-153 | for a package that `read_package` accepts, `show_training_info` yields a record if and only if the duration value is non-zero and, for WLK, the height value is non-zero |
| `Packages.SwimmingPackage` | homework.py:164 | SWM [720, 1, 80, 25, 40] summarises to Swimming, 1 h, 0.9936 km, 1.0 km/h, 336.0 kcal |
| `Packages.RunningPackage` | homework.py:165 | RUN [15000, 1, 75] summarises to Running, 1 h, 9.75 km, 9.75 km/h, 699.75 kcal |
| `Packages.WalkingPackage` | homework.py:166 | WLK [9000, 1, 75, 180] summarises to SportsWalking, 1 h, 5.85 km, 5.85 km/h, 157.5 kcal |
| `Packages.UnknownTagPackage` | homework.py:151-152 | the tag XYZ raises `ValueError` whose message contains "XYZ", whatever the data |
| `Packages.WrongArityPackage` | homework.py:153 | RUN with four values fails with `TypeError`, recorded as the called class Running, 3 parameters without `self`, and 4 values given |

## Left out

- `InfoMessage.get_message` and the `INFO_MESSAGE` template (homework.py:15-25) are not modelled. They are locale text plus `.3f` float formatting through `str.format` and `asdict`. `InfoMessage` is modelled as a plain record.
- `main` and the `__main__` driver loop (homework.py:156-171) are not modelled because they only print. The three packages they process appear as the lemmas in `Packages`.
- IEEE-754 rounding is not modelled: every quantity is an exact real. The demo values are proved exactly, with no floating-point tolerance. `OverflowError` from `** 2` on huge floats does not arise.
- Python reflection is not modelled. `self.__class__.__name__` and the `Type[...]` table become a fixed name per `Kind` (`Homework.Name`).
- The `int` annotation on `action` is not modelled: `action` is a real. Python does not enforce the annotation, and `read_package` passes list items through unchanged, so an integer action is one case of the model.
- The sensor list is a `seq<real>`. A non-numeric item in it, which Python would accept at construction and fail on later, is not modelled.
- `GetDistance`, `RunningCalories`, `WalkingCalories` and `SwimmingCalories` carry no `ensures` of their own. Their formulas are stated by `TrainingFacts.DistancePerAction`, `TrainingFacts.RunningCaloriesClosedForm`, `TrainingFacts.WalkingCaloriesFloorForm` and `TrainingFacts.SwimmingCaloriesClosedForm`.
- The text of Python's `TypeError` message is not modelled. Python names the class whose `__init__` runs, which is `Training` for `Running` because `Running` inherits it. It counts `self` among the arguments, and when values are missing it names the missing parameter instead of giving counts. The model records the called class, the parameter count without `self` and the number of values given.
