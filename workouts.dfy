/**
 The workout-metrics engine: the three training variants (running, sports
 walking, swimming), their distance, mean-speed and calorie formulas, and the
 information record that a finished training is packed into.

 Every quantity is an exact `real`; homework.py computes with floating point.
 */
module Workouts {

  /** Step length in metres shared by running and walking (`Training.LEN_STEP`). */
  const LEN_STEP: real := 0.65
  /** Stroke length in metres that `Swimming` overrides `LEN_STEP` with. */
  const SWIM_LEN_STEP: real := 1.38
  const M_IN_KM: real := 1000.0
  /** Minutes in an hour (named `M_IN_HOUR` in homework.py). */
  const M_IN_HOUR: real := 60.0

  const RUN_CALORIE_1: real := 18.0
  const RUN_CALORIE_2: real := 20.0
  const WALK_CALORIE_1: real := 0.035
  const WALK_CALORIE_2: real := 0.029
  const SWIM_CALORIE_1: real := 1.1
  const SWIM_CALORIE_2: real := 2.0

  /**
   One finished training session. The common fields are the action count
   (steps or strokes), the duration in hours and the body weight in kg;
   walking adds the height, swimming the pool length in metres and the
   number of pool lengths swum.
   */
  datatype Training =
    | Running(action: real, duration: real, weight: real)
    | SportsWalking(action: real, duration: real, weight: real, height: real)
    | Swimming(action: real, duration: real, weight: real, lengthPool: real, countPool: real)

  /** The report handed to the formatter. */
  datatype InfoMessage = InfoMessage(
    trainingType: string,
    duration: real,
    distance: real,
    speed: real,
    calories: real)

  /** The class name of the variant, which the report carries as its type. */
  function TrainingType(t: Training): (name: string)
    ensures name == "Running" <==> t.Running?
    ensures name == "SportsWalking" <==> t.SportsWalking?
    ensures name == "Swimming" <==> t.Swimming?
  {
    match t
    case Running(_, _, _) => "Running"
    case SportsWalking(_, _, _, _) => "SportsWalking"
    case Swimming(_, _, _, _, _) => "Swimming"
  }

  /** The `LEN_STEP` the variant sees through `self`. */
  function LenStep(t: Training): (step: real)
    ensures step > 0.0
    ensures step == SWIM_LEN_STEP <==> t.Swimming?
    ensures !t.Swimming? ==> step == LEN_STEP
  {
    if t.Swimming? then SWIM_LEN_STEP else LEN_STEP
  }

  /** Distance in km: action count times step length, converted from metres. */
  function Distance(t: Training): (km: real)
    ensures km * M_IN_KM == t.action * LenStep(t)
    ensures t.action >= 0.0 ==> km >= 0.0
    ensures t.action > 0.0 ==> km > 0.0
  {
    (t.action * LenStep(t)) / M_IN_KM
  }

  /**
   Mean speed in km/h. Running and walking use the base formula, distance
   over duration; swimming ignores the stroke distance and divides the
   length of pool swum by the duration.
   */
  function MeanSpeed(t: Training): (kmh: real)
    requires t.duration != 0.0
    ensures !t.Swimming? ==> kmh * t.duration == Distance(t)
    ensures t.Swimming? ==> kmh * t.duration * M_IN_KM == t.lengthPool * t.countPool
    ensures !t.Swimming? && t.duration > 0.0 && t.action >= 0.0 ==> kmh >= 0.0
    ensures t.Swimming? && t.duration > 0.0 && t.lengthPool * t.countPool >= 0.0 ==> kmh >= 0.0
  {
    match t
    case Swimming(_, duration, _, lengthPool, countPool) =>
      lengthPool * countPool / M_IN_KM / duration
    case _ =>
      Distance(t) / t.duration
  }

  /** Python's `a // b` on floats: the floor of the quotient. */
  function FloorDiv(a: real, b: real): (q: real)
    requires b != 0.0
    ensures q.Floor as real == q
    ensures q <= a / b < q + 1.0
  {
    (a / b).Floor as real
  }

  /** What the formulas divide by: the duration and, for walking, the height. */
  predicate Computable(t: Training)
  {
    t.duration != 0.0 && (t.SportsWalking? ==> t.height != 0.0)
  }

  /**
   `Running.get_spent_calories` on the mean speed, duration and weight: for a
   positive weight and duration it is positive exactly when 18 times the
   speed exceeds 20.
   */
  function RunningCalories(speed: real, duration: real, weight: real): (kcal: real)
    ensures weight > 0.0 && duration > 0.0 ==>
              (kcal > 0.0 <==> RUN_CALORIE_1 * speed > RUN_CALORIE_2)
  {
    (RUN_CALORIE_1 * speed - RUN_CALORIE_2) * weight / M_IN_KM * (duration * M_IN_HOUR)
  }

  /**
   The walking formula of `SportsWalking.get_spent_calories` with the
   floor quotient given as f.
   */
  function WalkingFormula(f: real, weight: real, minutes: real): real
  {
    (WALK_CALORIE_1 * weight + f * WALK_CALORIE_2 * weight) * minutes
  }

  /**
   `SportsWalking.get_spent_calories`: the squared speed is floor-divided by
   the height. For a positive weight, duration and height the result is at
   least the weight term, which is positive.
   */
  function WalkingCalories(speed: real, duration: real, weight: real, height: real): (kcal: real)
    requires height != 0.0
    ensures weight > 0.0 && duration > 0.0 && height > 0.0 ==>
              kcal >= WALK_CALORIE_1 * weight * (duration * M_IN_HOUR) > 0.0
  {
    WalkingFormula(FloorDiv(speed * speed, height), weight, duration * M_IN_HOUR)
  }

  /**
   `Swimming.get_spent_calories` on the swim speed and weight: positive for a
   positive weight and a non-negative speed.
   */
  function SwimmingCalories(speed: real, weight: real): (kcal: real)
    ensures weight > 0.0 && speed >= 0.0 ==> kcal > 0.0
  {
    (speed + SWIM_CALORIE_1) * SWIM_CALORIE_2 * weight
  }

  /** Spent kilocalories, each variant with its own closed-form formula. */
  function Calories(t: Training): (kcal: real)
    requires Computable(t)
    ensures t.Running? && t.weight > 0.0 && t.duration > 0.0 ==>
              (kcal > 0.0 <==> RUN_CALORIE_1 * MeanSpeed(t) > RUN_CALORIE_2)
    ensures t.SportsWalking? && t.weight > 0.0 && t.duration > 0.0 && t.height > 0.0 ==>
              kcal >= WALK_CALORIE_1 * t.weight * (t.duration * M_IN_HOUR) > 0.0
    ensures t.Swimming? && t.weight > 0.0 && MeanSpeed(t) >= 0.0 ==> kcal > 0.0
  {
    match t
    case Running(_, duration, weight) =>
      RunningCalories(MeanSpeed(t), duration, weight)
    case SportsWalking(_, duration, weight, height) =>
      WalkingCalories(MeanSpeed(t), duration, weight, height)
    case Swimming(_, _, weight, _, _) =>
      SwimmingCalories(MeanSpeed(t), weight)
  }

  /** The report of one training: its type, duration and the three metrics. */
  function ShowTrainingInfo(t: Training): (info: InfoMessage)
    requires Computable(t)
    ensures info.trainingType == TrainingType(t)
    ensures info.duration == t.duration
    ensures info.distance == Distance(t) && info.speed == MeanSpeed(t) && info.calories == Calories(t)
  {
    InfoMessage(TrainingType(t), t.duration, Distance(t), MeanSpeed(t), Calories(t))
  }

  /**
   A swim's speed and calories do not depend on its stroke count; its
   distance does, and changes exactly when the stroke count does.
   */
  lemma SwimmingIgnoresAction(t: Training, action: real)
    requires t.Swimming? && t.duration != 0.0
    ensures var u := Swimming(action, t.duration, t.weight, t.lengthPool, t.countPool);
            && MeanSpeed(u) == MeanSpeed(t)
            && Calories(u) == Calories(t)
            && (Distance(u) == Distance(t) <==> action == t.action)
  {
  }

  /**
   Running calories without the division by the duration: the speed term
   times the duration is the distance, so
   kcal = (18 * distance - 20 * duration) * weight * 60 / 1000.
   */
  lemma RunningCaloriesClosedForm(t: Training)
    requires t.Running? && t.duration != 0.0
    ensures Calories(t) ==
              (RUN_CALORIE_1 * Distance(t) - RUN_CALORIE_2 * t.duration) * t.weight * M_IN_HOUR / M_IN_KM
  {
  }

  /**
   For a positive weight and duration, the walking formula grows strictly
   with the floor quotient.
   */
  lemma WalkingFormulaMonotone(f1: real, f2: real, weight: real, minutes: real)
    requires f1 <= f2 && weight > 0.0 && minutes > 0.0
    ensures WalkingFormula(f1, weight, minutes) <= WalkingFormula(f2, weight, minutes)
    ensures f1 < f2 ==> WalkingFormula(f1, weight, minutes) < WalkingFormula(f2, weight, minutes)
  {
  }

  /**
   What the floor costs against real division: with q = speed^2 / height,
   walking calories are at most the formula evaluated at q and more than
   the formula evaluated at q - 1, and they are the formula evaluated at a
   whole number: together, at the floor of q.
   */
  lemma WalkingCaloriesBounds(t: Training)
    requires t.SportsWalking? && t.duration > 0.0 && t.height > 0.0 && t.weight > 0.0
    ensures var speed := MeanSpeed(t);
            var q := speed * speed / t.height;
            var minutes := t.duration * M_IN_HOUR;
            WalkingFormula(q - 1.0, t.weight, minutes) < Calories(t) <= WalkingFormula(q, t.weight, minutes)
    ensures exists f: real {:trigger WalkingFormula(f, t.weight, t.duration * M_IN_HOUR)} ::
              f.Floor as real == f && Calories(t) == WalkingFormula(f, t.weight, t.duration * M_IN_HOUR)
  {
    WalkingBounds(MeanSpeed(t), t.duration, t.weight, t.height);
  }

  /**
   The scalar form of `WalkingCaloriesBounds`, which also says that the
   quotient the formula is evaluated at is a whole number; with the strict
   bounds and `WalkingFormulaMonotone` this leaves only the floor of q.
   */
  lemma WalkingBounds(speed: real, duration: real, weight: real, height: real)
    requires duration > 0.0 && height > 0.0 && weight > 0.0
    ensures var q := speed * speed / height;
            var minutes := duration * M_IN_HOUR;
            WalkingFormula(q - 1.0, weight, minutes) < WalkingCalories(speed, duration, weight, height)
            <= WalkingFormula(q, weight, minutes)
    ensures exists f: real {:trigger WalkingFormula(f, weight, duration * M_IN_HOUR)} ::
              f.Floor as real == f
              && WalkingCalories(speed, duration, weight, height) == WalkingFormula(f, weight, duration * M_IN_HOUR)
  {
    var q := speed * speed / height;
    var f := FloorDiv(speed * speed, height);
    WalkingFormulaMonotone(q - 1.0, f, weight, duration * M_IN_HOUR);
    WalkingFormulaMonotone(f, q, weight, duration * M_IN_HOUR);
  }

  /**
   When the squared speed is below the height, the floor division yields 0
   and walking calories are the weight term alone.
   */
  lemma WalkingCaloriesBelowHeight(t: Training)
    requires t.SportsWalking? && t.duration != 0.0 && t.height > 0.0
    requires MeanSpeed(t) * MeanSpeed(t) < t.height
    ensures Calories(t) == WALK_CALORIE_1 * t.weight * (t.duration * M_IN_HOUR)
  {
    WalkingBelowHeight(MeanSpeed(t), t.duration, t.weight, t.height);
  }

  /** The scalar form of `WalkingCaloriesBelowHeight`. */
  lemma WalkingBelowHeight(speed: real, duration: real, weight: real, height: real)
    requires height > 0.0 && speed * speed < height
    ensures WalkingCalories(speed, duration, weight, height) == WALK_CALORIE_1 * weight * (duration * M_IN_HOUR)
  {
  }
}
