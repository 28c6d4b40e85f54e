# Fitness tracker: workout-metrics engine

A Dafny model of the core of a small fitness tracker (`homework.py`). Sensor
packets arrive as an activity code (`SWM`, `RUN`, `WLK`) plus a list of numbers.
The tracker turns each packet into one of three trainings: running, sports
walking or swimming. From the training it computes distance (km), mean speed
(km/h) and spent kilocalories, and packs them into an information record.

- `Workouts` (workouts.dfy) holds the `Training` datatype. It has one
  constructor per training class, because the classes are never mutated after
  construction. The module also has homework.py's constants, the distance and
  speed formulas, one calorie formula per class, and the `InfoMessage` record
  that `show_training_info` returns. Every quantity is an exact `real`.
- `Packages` (packages.dfy) holds the `read_package` lookup table. It binds a
  data list positionally to a class's constructor parameters. It also models
  the arity guard of the driver loop (`available_values`) as a predicate, and
  one pass of that loop (guard, read, report) as a function.

Python's `//` on floats is modelled as the floor of the real quotient, and it
returns a real, as Python does. The code divides by the duration in every
variant and by the height when walking. Python raises `ZeroDivisionError`
when either is 0, so those functions require exactly that they are non-zero.
They require nothing more.

## Model

| member | source | states |
|---|---|---|
| `Workouts.TrainingType` | homework.py:60 | the record's type is the class name, and the name is `Running`, `SportsWalking` or `Swimming` exactly when the training is that variant |
| `Workouts.LenStep` | homework.py:30 | the `self.LEN_STEP` lookup: the step length is positive, and it is the swimming stroke of 1.38 m (the override at line 111) exactly for a swim, 0.65 m otherwise |
| `Workouts.Distance` | homework.py:43-46 | distance times 1000 is action times the step length (0.65 m, or 1.38 m for swimming, as overridden at line 111); it is non-negative for a non-negative action and positive for a positive one |
| `Workouts.MeanSpeed` | homework.py:48-52 | for running and walking, speed times duration is the distance; for swimming (override at lines 129-133), speed times duration times 1000 is pool length times pool count; it is non-negative for a positive duration and non-negative inputs |
| `Workouts.FloorDiv` | homework.py:102-103 | the floor division is an integral value q with q <= a/b < q + 1 |
| `Workouts.Computable` | homework.py:48-52 | the divide-by-zero conditions as written: a non-zero duration (the divisor here and at line 132), and a non-zero height for walking (the divisor at line 103) |
| `Workouts.RunningCalories` | homework.py:77-84 | with a positive weight and duration, running calories are positive exactly when 18 times the speed exceeds 20 |
| `Workouts.WalkingFormula` | homework.py:101-105 | the walking expression as written, with the floor quotient taken as a parameter so that the bounds lemmas can compare it against real division |
| `Workouts.WalkingCalories` | homework.py:99-106 | with a positive weight, duration and height, walking calories are at least the weight term 0.035 * weight * minutes, which is positive |
| `Workouts.SwimmingCalories` | homework.py:135-140 | swimming calories are positive for a positive weight and a non-negative speed |
| `Workouts.Calories` | homework.py:64 | the dispatch to the variant's `get_spent_calories`, carrying each variant's sign property over to the training's own mean speed, weight, duration and height |
| `Workouts.ShowTrainingInfo` | homework.py:58-66 | the record carries the class name and the unchanged duration, and its distance, speed and calories are exactly the variant's three metrics |
| `Workouts.SwimmingIgnoresAction` | homework.py:129-140 | two swims that differ only in action have equal speed and equal calories, and equal distance only when the actions are equal |
| `Workouts.RunningCaloriesClosedForm` | homework.py:79-83 | running calories equal (18 * distance - 20 * duration) * weight * 60 / 1000; the division by the duration cancels |
| `Workouts.WalkingFormulaMonotone` | homework.py:101-105 | for a positive weight and duration, the walking formula rises with the floor quotient, strictly when the quotient strictly rises |
| `Workouts.WalkingCaloriesBounds` | homework.py:101-105 | with q = speed^2 / height, walking calories are at most the formula with q in place of the floor and more than the formula with q - 1, and they equal the formula at some whole number; with `WalkingFormulaMonotone` that number can only be the floor of q, so real division does not meet the contract |
| `Workouts.WalkingBounds` | homework.py:99-106 | the same bounds and the same whole-number quotient, stated on the scalar walking formula |
| `Workouts.WalkingCaloriesBelowHeight` | homework.py:102-103 | when speed^2 < height, walking calories reduce to 0.035 * weight * duration * 60 |
| `Workouts.WalkingBelowHeight` | homework.py:101-105 | the same reduction, stated on the scalar walking formula |
| `Packages.Arity` | homework.py:34-38 | the number of constructor parameters of each class (also lines 72, 90-93 and 113-117): between 3 and 5, and 3 exactly for running |
| `Packages.KindOf` | homework.py:146-148 | the training's class, as the values of `possible_values` name it (Swimming, Running, SportsWalking) |
| `Packages.Fields` | homework.py:34-41 | the constructor-ordered field list (also lines 90-95 and 113-120) has the class's arity; it starts with action, duration and weight, then holds the height for walking, and the pool length followed by the pool count for swimming |
| `Packages.Construct` | homework.py:150 | calling the class with `*data` gives a training of that class whose fields, read back in order, are the list unchanged |
| `Packages.ReadPackage` | homework.py:143-151 | a training is returned exactly when the code is in the table; it is of the code's class (`SWM` to Swimming, `RUN` to Running, `WLK` to SportsWalking) and it reads back the data list unchanged |
| `Packages.Code` | homework.py:146-148 | each training's code is in the table and maps to its class |
| `Packages.ReadPackageRoundTrip` | homework.py:146-151 | reading a training's own code and field list gives that training back |
| `Packages.ReadPackageInjective` | homework.py:146-151 | a packet that reads as a training is that training's code and field list |
| `Packages.TablesAgree` | homework.py:146-148 | the two tables `POSSIBLE_VALUES` (code to class) and `AVAILABLE_VALUES` (code to list length) hold the same codes, and each code's expected length (line 166) is the arity of its class |
| `Packages.Dispatchable` | homework.py:168-170 | the driver's guard as written: the code is in `available_values` and the list length equals its entry; a packet that passes has a code `read_package` knows and 3 to 5 values |
| `Packages.DispatchableIffBindable` | homework.py:166-170 | the guard (code known, length 5/3/4 for SWM/RUN/WLK) admits exactly the packets whose length is the arity of the class's constructor, the ones that bind without a TypeError |
| `Packages.PacketComputable` | homework.py:99-106 | the divide-by-zero conditions on a guarded packet's raw values (index 1 the duration, index 3 the height for WLK), which hold exactly when the training `read_package` builds from it is `Computable` (divisors at lines 50, 103 and 132) |
| `Packages.ProcessPacket` | homework.py:167-172 | a report is produced exactly when the packet passes the guard, and it is the report of the training `read_package` builds |
| `Packages.DemoReports` | homework.py:161-172 | the three demo packets report SWM: 0.9936 km, 1.25 km/h, 376 kcal; RUN: 9.75 km, 9.75 km/h, 699.75 kcal; WLK: 5.85 km, 5.85 km/h, 157.5 kcal |

## Left out

- `InfoMessage.get_message` (homework.py:18-25) is left out. It only builds a string with `:.3f` float formatting.
- `main`, `print` and the I/O of the demo loop (homework.py:154-172) are left out. Only the loop's guard and one guarded pass are modelled, as pure functions. The loop over the packet list itself is not modelled.
- IEEE-754 floating point is not modelled. All quantities are exact reals, so the demo results are the exact values, not the printed floats.
- The base `Training.get_spent_calories` (homework.py:54-56) returns `None`. `read_package` never builds a base `Training`, so it has no constructor here.
- Python does not enforce its type hints. `action` and `count_pool` are hinted `int` but are bound from an untyped list, so every field is a `real` here. The demo's integers are represented exactly.
- A wrong list length for a known code makes `read_package` raise a `TypeError`. This is a precondition of `ReadPackage`, not a modelled exception. `DispatchableIffBindable` shows that the driver's guard excludes exactly those packets.
- A zero duration (or a zero height when walking) makes the formulas raise `ZeroDivisionError`. This is a precondition (`Computable`, `PacketComputable`), not a modelled exception.
- homework.py has no input validation: no positivity checks and no weight or height ranges. The model adds none.
- The walking formula's floor division drops the height term whenever speed^2 < height. `WalkingCaloriesBelowHeight` and `WalkingCaloriesBounds` record what this costs. The behaviour is kept as written, not corrected, because the formula may be intentional.
