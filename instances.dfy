/**
 * The sports-walking and swimming instances as the code is written, where
 * their methods store results on the instance.
 *
 * SportsWalking.get_spent_calories divides the bound method
 * `self.get_mean_speed` (not its value) by M_IN_KM, so it always raises a
 * TypeError before it stores anything. Swimming.get_mean_speed and
 * Swimming.get_spent_calories assign their result to an instance
 * attribute named like the method itself; from then on that number
 * shadows the method, so calling it again raises a TypeError, and
 * get_spent_calories only works after get_mean_speed has shadowed itself
 * with its value. The pure functions of module Workouts are the
 * corrected reading, in which every call uses the invoked value.
 */
module Instances {
  import opened Wrappers
  import opened Workouts

  /** The two TypeErrors the stateful code raises. */
  datatype CallError =
    | FloatNotCallable     // the method's name was rebound on the instance to a number
    | MethodInArithmetic   // a bound method was used as a number

  class SportsWalkingInstance {
    const action: real
    const duration: real
    const weight: real
    const height: real
    /** The attribute `self.mean_speed`, absent until get_mean_speed has run. */
    var meanSpeed: Option<real>

    function Value(): Training {
      SportsWalking(action, duration, weight, height)
    }

    ghost predicate Valid()
      reads this
    {
      meanSpeed.Some? ==> duration != 0.0 && meanSpeed.value == MeanSpeed(Value())
    }

    constructor (action: real, duration: real, weight: real, height: real)
      ensures Valid()
      ensures Value() == SportsWalking(action, duration, weight, height)
      ensures meanSpeed == None
    {
      this.action := action;
      this.duration := duration;
      this.weight := weight;
      this.height := height;
      meanSpeed := None;
    }

    /** get_mean_speed stores its result in `self.mean_speed` and returns it; it can be called again. */
    method GetMeanSpeed() returns (r: real)
      requires Valid() && duration != 0.0
      modifies this
      ensures Valid()
      ensures r == MeanSpeed(Value()) && meanSpeed == Some(r)
    {
      r := WalkingMeanSpeed(Value());
      meanSpeed := Some(r);
    }

    /**
     * get_spent_calories as written: the first operand of the conversion is
     * the bound method, so the division raises before `self.spent_calories`
     * is assigned, whatever the instance's state.
     */
    method GetSpentCalories() returns (r: Result<real, CallError>)
      requires Valid()
      ensures r == Failure(MethodInArithmetic)
    {
      r := Failure(MethodInArithmetic);
    }
  }

  class SwimmingInstance {
    const action: real
    const duration: real
    const weight: real
    const lengthPool: real
    const countPool: real
    /** The instance attribute `get_mean_speed`: once set, it shadows the method. */
    var meanSpeedAttr: Option<real>
    /** The instance attribute `get_spent_calories`: once set, it shadows the method. */
    var spentCaloriesAttr: Option<real>

    function Value(): Training {
      Swimming(action, duration, weight, lengthPool, countPool)
    }

    ghost predicate Valid()
      reads this
    {
      && (meanSpeedAttr.Some? ==> duration != 0.0 && meanSpeedAttr.value == MeanSpeed(Value()))
      && (spentCaloriesAttr.Some? ==>
            duration != 0.0 && spentCaloriesAttr.value == SpentCalories(Value()))
    }

    constructor (action: real, duration: real, weight: real, lengthPool: real, countPool: real)
      ensures Valid()
      ensures Value() == Swimming(action, duration, weight, lengthPool, countPool)
      ensures meanSpeedAttr == None && spentCaloriesAttr == None
    {
      this.action := action;
      this.duration := duration;
      this.weight := weight;
      this.lengthPool := lengthPool;
      this.countPool := countPool;
      meanSpeedAttr := None;
      spentCaloriesAttr := None;
    }

    /** get_distance does not touch the instance and can be called any number of times. */
    method GetDistance() returns (r: real)
      ensures r == Distance(Value()) && r * M_IN_KM == action * SWIM_LEN_STEP
    {
      r := SwimmingDistance(Value());
    }

    /**
     * get_mean_speed: the first call computes the speed and rebinds the
     * method's name to it; any later call finds a number and fails.
     */
    method GetMeanSpeed() returns (r: Result<real, CallError>)
      requires Valid()
      requires meanSpeedAttr.None? ==> duration != 0.0
      modifies this
      ensures Valid() && spentCaloriesAttr == old(spentCaloriesAttr)
      ensures old(meanSpeedAttr).Some? ==>
                r == Failure(FloatNotCallable) && meanSpeedAttr == old(meanSpeedAttr)
      ensures old(meanSpeedAttr).None? ==>
                r == Success(MeanSpeed(Value())) && meanSpeedAttr == Some(r.value)
    {
      if meanSpeedAttr.Some? {
        r := Failure(FloatNotCallable);
      } else {
        var speed := SwimmingMeanSpeed(Value());
        meanSpeedAttr := Some(speed);
        r := Success(speed);
      }
    }

    /**
     * get_spent_calories: a second call finds a number and fails; a first
     * call fails too unless get_mean_speed has already replaced itself with
     * its value, and otherwise it computes the calories from that value and
     * rebinds its own name to them.
     */
    method GetSpentCalories() returns (r: Result<real, CallError>)
      requires Valid()
      modifies this
      ensures Valid() && meanSpeedAttr == old(meanSpeedAttr)
      ensures old(spentCaloriesAttr).Some? ==>
                r == Failure(FloatNotCallable) && spentCaloriesAttr == old(spentCaloriesAttr)
      ensures old(spentCaloriesAttr).None? && meanSpeedAttr.None? ==>
                r == Failure(MethodInArithmetic) && spentCaloriesAttr == None
      ensures old(spentCaloriesAttr).None? && meanSpeedAttr.Some? ==>
                r == Success(SpentCalories(Value())) && spentCaloriesAttr == Some(r.value)
    {
      if spentCaloriesAttr.Some? {
        r := Failure(FloatNotCallable);
      } else if meanSpeedAttr.None? {
        r := Failure(MethodInArithmetic);
      } else {
        // The stored number stands where the source names the method; Valid()
        // makes it the value get_mean_speed returned.
        var calories := SwimmingCalories(Value());
        spentCaloriesAttr := Some(calories);
        r := Success(calories);
      }
    }
  }

  // ---------------------------------------------------------------------
  // The discrepancies, on the program's own packages
  // ---------------------------------------------------------------------

  /** WLK [9000, 1, 75, 180]: the speed is fine, the calories raise a TypeError. */
  method WalkingCaloriesRaise() returns (speed: real, calories: Result<real, CallError>)
    ensures speed == 5.85
    ensures calories == Failure(MethodInArithmetic)
  {
    var w := new SportsWalkingInstance(9000.0, 1.0, 75.0, 180.0);
    speed := w.GetMeanSpeed();
    calories := w.GetSpentCalories();
  }

  /** SWM [720, 1, 80, 25, 40]: asking for the calories first raises a TypeError. */
  method SwimmingCaloriesBeforeSpeed() returns (calories: Result<real, CallError>)
    ensures calories == Failure(MethodInArithmetic)
  {
    var s := new SwimmingInstance(720.0, 1.0, 80.0, 25.0, 40.0);
    calories := s.GetSpentCalories();
  }

  /**
   * SWM [720, 1, 80, 25, 40]: speed, then calories, succeed once (1 km/h,
   * 336 kcal); asking for either a second time raises a TypeError.
   */
  method SwimmingSecondCalls() returns (speed: Result<real, CallError>,
                                        calories: Result<real, CallError>,
                                        speedAgain: Result<real, CallError>,
                                        caloriesAgain: Result<real, CallError>)
    ensures speed == Success(1.0) && calories == Success(336.0)
    ensures speedAgain == Failure(FloatNotCallable)
    ensures caloriesAgain == Failure(FloatNotCallable)
  {
    var s := new SwimmingInstance(720.0, 1.0, 80.0, 25.0, 40.0);
    speed := s.GetMeanSpeed();
    calories := s.GetSpentCalories();
    speedAgain := s.GetMeanSpeed();
    caloriesAgain := s.GetSpentCalories();
  }
}
