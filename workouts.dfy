/**
 * The workout-statistics formulas: a base training with three variants
 * (running, sports walking, swimming) that override how distance, mean
 * speed and spent calories are computed.
 *
 * Python's class hierarchy becomes one datatype with a constructor per
 * variant; each Python method becomes a function, and virtual dispatch
 * becomes a `match` on the variant. Every quantity is an exact `real`.
 * Where the source divides by `duration` (or `height`) Python raises
 * ZeroDivisionError on zero; the functions require a non-zero divisor.
 */
module Workouts {

  // Class constants of the base training, inherited by every variant.
  const M_IN_KM: real := 1000.0
  const LEN_STEP: real := 0.65
  const MIN_IN_H: real := 60.0

  // Running's calorie coefficients.
  const RUN_SPEED_MULTIPLIER: real := 18.0
  const RUN_SPEED_SHIFT: real := 1.79

  // Sports walking's calorie coefficients.
  const WALK_WEIGHT_MULTIPLIER: real := 0.035
  const WALK_SPEED_HEIGHT_MULTIPLIER: real := 0.029

  // Swimming shadows LEN_STEP and has its own calorie coefficients.
  const SWIM_LEN_STEP: real := 1.38
  const SWIM_SPEED_SHIFT: real := 1.1
  const SWIM_WEIGHT_MULTIPLIER: real := 2.0

  /** One training, with the raw readings its constructor stores. */
  datatype Training =
    | Running(action: real, duration: real, weight: real)
    | SportsWalking(action: real, duration: real, weight: real, height: real)
    | Swimming(action: real, duration: real, weight: real,
               lengthPool: real, countPool: real)
  {
    /** `self.LEN_STEP` as an instance sees it: Swimming's class attribute shadows the base one. */
    function LenStep(): real {
      if Swimming? then SWIM_LEN_STEP else LEN_STEP
    }
  }

  function Square(x: real): real { x * x }

  /** Training.get_distance: kilometres covered by `action` steps or strokes. */
  function BaseDistance(t: Training): (r: real)
    ensures r * M_IN_KM == t.action * t.LenStep()
  {
    t.action * t.LenStep() / M_IN_KM
  }

  /**
   * Swimming.get_distance: the override repeats the base expression, read
   * with swimming's own step of 1.38, so it differs from the 0.65-step
   * distance exactly when any stroke was made.
   */
  function SwimmingDistance(t: Training): (r: real)
    requires t.Swimming?
    ensures r == t.action * 1.38 / 1000.0
    ensures t.action != 0.0 <==> r != t.action * 0.65 / 1000.0
  {
    t.action * t.LenStep() / M_IN_KM
  }

  /** `self.get_distance()`, dispatched on the variant. */
  function Distance(t: Training): real {
    match t
    case Swimming(_, _, _, _, _) => SwimmingDistance(t)
    case _ => BaseDistance(t)
  }

  /** Training.get_mean_speed, inherited by Running: distance over duration. */
  function BaseMeanSpeed(t: Training): (r: real)
    requires t.duration != 0.0
    ensures r * t.duration == Distance(t)
  {
    Distance(t) / t.duration
  }

  /** SportsWalking.get_mean_speed: recomputed from the steps, dividing by duration before converting to km. */
  function WalkingMeanSpeed(t: Training): (r: real)
    requires t.SportsWalking? && t.duration != 0.0
    ensures r == BaseMeanSpeed(t)
  {
    var d := t.action * t.LenStep();
    assert d / t.duration / M_IN_KM == d / M_IN_KM / t.duration;
    d / t.duration / M_IN_KM
  }

  /** Swimming.get_mean_speed: pool length times pool count, in km, over duration. */
  function SwimmingMeanSpeed(t: Training): (r: real)
    requires t.Swimming? && t.duration != 0.0
    ensures r * t.duration * M_IN_KM == t.lengthPool * t.countPool
  {
    t.lengthPool * t.countPool / M_IN_KM / t.duration
  }

  /** `self.get_mean_speed()`, dispatched on the variant. */
  function MeanSpeed(t: Training): real
    requires t.duration != 0.0
  {
    match t
    case Running(_, _, _) => BaseMeanSpeed(t)
    case SportsWalking(_, _, _, _) => WalkingMeanSpeed(t)
    case Swimming(_, _, _, _, _) => SwimmingMeanSpeed(t)
  }

  /**
   * Running.get_spent_calories. Weight is used as given (no division by
   * 1000); the speed term's duration cancels against the total duration.
   */
  function RunningCalories(t: Training): (r: real)
    requires t.Running? && t.duration != 0.0
    ensures r == (RUN_SPEED_MULTIPLIER * t.LenStep() * t.action / M_IN_KM
                  + RUN_SPEED_SHIFT * t.duration) * t.weight * MIN_IN_H
  {
    var speed := MeanSpeed(t);
    assert speed * t.duration == t.action * t.LenStep() / M_IN_KM;
    (RUN_SPEED_MULTIPLIER * speed + RUN_SPEED_SHIFT) * t.weight * t.duration * MIN_IN_H
  }

  /**
   * SportsWalking.get_spent_calories, with the mean speed invoked: the
   * speed is divided by M_IN_KM (not converted to m/s) and the height is
   * used as given. In the raw readings, the speed term is the squared
   * step distance in metres over 10^12 * duration * height. The weight
   * term alone is a lower bound, reached when nothing was walked.
   */
  function WalkingCalories(t: Training): (r: real)
    requires t.SportsWalking? && t.duration != 0.0 && t.height != 0.0
    ensures r == WALK_WEIGHT_MULTIPLIER * t.weight * t.duration * MIN_IN_H
                 + WALK_SPEED_HEIGHT_MULTIPLIER * t.weight * MIN_IN_H
                   * (t.action * LEN_STEP) * (t.action * LEN_STEP)
                   / (1000000000000.0 * t.duration * t.height)
    ensures t.weight >= 0.0 && t.duration > 0.0 && t.height > 0.0 ==>
              r >= WALK_WEIGHT_MULTIPLIER * t.weight * t.duration * MIN_IN_H
    ensures t.action == 0.0 ==> r == WALK_WEIGHT_MULTIPLIER * t.weight * t.duration * MIN_IN_H
  {
    var kmhToMsec := MeanSpeed(t) / M_IN_KM;
    var speedTerm := Square(kmhToMsec) / t.height * WALK_SPEED_HEIGHT_MULTIPLIER * t.weight;
    (WALK_WEIGHT_MULTIPLIER * t.weight + speedTerm) * t.duration * MIN_IN_H
  }

  /**
   * Swimming.get_spent_calories, with the mean speed invoked. The speed
   * term's duration cancels against the total duration, so the result
   * depends on the pool figures, the duration and the weight only.
   */
  function SwimmingCalories(t: Training): (r: real)
    requires t.Swimming? && t.duration != 0.0
    ensures r == (t.lengthPool * t.countPool / M_IN_KM + SWIM_SPEED_SHIFT * t.duration)
                 * SWIM_WEIGHT_MULTIPLIER * t.weight
  {
    var speed := MeanSpeed(t);
    assert speed * t.duration == t.lengthPool * t.countPool / M_IN_KM;
    (speed + SWIM_SPEED_SHIFT) * SWIM_WEIGHT_MULTIPLIER * t.weight * t.duration
  }

  /** What `self.get_spent_calories()` needs to avoid dividing by zero. */
  predicate CaloriesDefined(t: Training) {
    t.duration != 0.0 && (t.SportsWalking? ==> t.height != 0.0)
  }

  /** `self.get_spent_calories()`, dispatched on the variant. */
  function SpentCalories(t: Training): real
    requires CaloriesDefined(t)
  {
    match t
    case Running(_, _, _) => RunningCalories(t)
    case SportsWalking(_, _, _, _) => WalkingCalories(t)
    case Swimming(_, _, _, _, _) => SwimmingCalories(t)
  }

  // ---------------------------------------------------------------------
  // Properties of the formulas
  // ---------------------------------------------------------------------

  /** Running and sports walking inherit LEN_STEP = 0.65 and M_IN_KM = 1000. */
  lemma StepDistance(t: Training)
    requires !t.Swimming?
    ensures Distance(t) == t.action * 0.65 / 1000.0
  {
  }

  /**
   * Swimming's distance uses its own step of 1.38; it agrees with the
   * inherited get_distance read through the shadowed constant, and differs
   * from the 0.65-step formula whenever any stroke was made.
   */
  lemma SwimmingDistanceOwnStep(t: Training)
    requires t.Swimming?
    ensures Distance(t) == t.action * 1.38 / 1000.0
    ensures Distance(t) == BaseDistance(t)
    ensures t.action != 0.0 <==> Distance(t) != t.action * 0.65 / 1000.0
  {
  }

  /** Distance grows in proportion to the number of actions, for every variant. */
  lemma DistanceProportional(t: Training, u: Training, k: real)
    requires u == t.(action := k * t.action)
    ensures Distance(u) == k * Distance(t)
  {
  }

  /**
   * For the variants that move in steps, the mean speed (inherited or
   * overridden) times the duration is the distance, and it is the base
   * get_distance() / duration.
   */
  lemma StepMeanSpeed(t: Training)
    requires !t.Swimming? && t.duration != 0.0
    ensures MeanSpeed(t) * t.duration == Distance(t)
    ensures MeanSpeed(t) == Distance(t) / t.duration
  {
  }

  /** Sports walking's overridden mean speed equals the base formula for every duration. */
  lemma WalkingOverrideMatchesBase(action: real, duration: real, weight: real, height: real)
    requires duration != 0.0
    ensures MeanSpeed(SportsWalking(action, duration, weight, height))
            == MeanSpeed(Running(action, duration, weight))
            == action * 0.65 / 1000.0 / duration
  {
  }

  /** Swimming's mean speed comes from the pool figures and never from the stroke count. */
  lemma SwimmingSpeedIgnoresAction(t: Training, a: real)
    requires t.Swimming? && t.duration != 0.0
    ensures MeanSpeed(Swimming(a, t.duration, t.weight, t.lengthPool, t.countPool)) == MeanSpeed(t)
    ensures MeanSpeed(t) == t.lengthPool * t.countPool / 1000.0 / t.duration
  {
  }

  /** Running burns a non-negative amount for non-negative steps and weight over a positive duration. */
  lemma RunningCaloriesNonNegative(t: Training)
    requires t.Running? && t.action >= 0.0 && t.weight >= 0.0 && t.duration > 0.0
    ensures SpentCalories(t) >= 0.0
    ensures SpentCalories(t) == (18.0 * MeanSpeed(t) + 1.79) * t.weight * t.duration * 60.0
  {
  }

  /** Swimming burns a non-negative amount for non-negative pool figures and weight over a positive duration. */
  lemma SwimmingCaloriesNonNegative(t: Training)
    requires t.Swimming? && t.lengthPool >= 0.0 && t.countPool >= 0.0
    requires t.weight >= 0.0 && t.duration > 0.0
    ensures SpentCalories(t) >= 0.0
    ensures SpentCalories(t) == (MeanSpeed(t) + 1.1) * 2.0 * t.weight * t.duration
  {
  }

  /** Sports walking burns at least its weight term for non-negative weight, positive duration and height. */
  lemma WalkingCaloriesNonNegative(t: Training)
    requires t.SportsWalking? && t.weight >= 0.0 && t.duration > 0.0 && t.height > 0.0
    ensures SpentCalories(t) >= 0.035 * t.weight * t.duration * 60.0 >= 0.0
  {
  }
}
