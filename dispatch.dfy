/**
 * read_package: the sensor package's type code selects a training
 * constructor from a fixed table, and the parameter list is bound to that
 * constructor's positional parameters.
 */
module Dispatch {
  import opened Wrappers
  import opened Workouts

  /** The constructors the dispatch table can hold. */
  datatype Variant = SwimmingClass | RunningClass | WalkingClass

  /** Why read_package raises instead of returning a training. */
  datatype PackageError =
    | UnknownWorkoutType(code: string)                         // KeyError from the table lookup
    | ArityMismatch(code: string, expected: nat, given: nat)    // TypeError from binding `*data`

  /** The dispatch table `training_dic`. */
  const TrainingTable: map<string, Variant> :=
    map["SWM" := SwimmingClass, "RUN" := RunningClass, "WLK" := WalkingClass]

  /** How many positional parameters each constructor takes. */
  function Arity(v: Variant): nat {
    match v
    case SwimmingClass => 5
    case RunningClass => 3
    case WalkingClass => 4
  }

  /** Calling the constructor with exactly its parameters, in order. */
  function Construct(v: Variant, data: seq<real>): Training
    requires |data| == Arity(v)
  {
    match v
    case SwimmingClass => Swimming(data[0], data[1], data[2], data[3], data[4])
    case RunningClass => Running(data[0], data[1], data[2])
    case WalkingClass => SportsWalking(data[0], data[1], data[2], data[3])
  }

  /**
   * read_package. The code is looked up before the parameters are bound,
   * so an unknown code fails as such whatever the parameter list.
   */
  function ReadPackage(code: string, data: seq<real>): (r: Result<Training, PackageError>)
    ensures code !in {"SWM", "RUN", "WLK"} <==> r == Failure(UnknownWorkoutType(code))
    ensures r.Success? <==>
              (code == "SWM" && |data| == 5) || (code == "RUN" && |data| == 3)
              || (code == "WLK" && |data| == 4)
    ensures r.Success? ==>
              && (code == "SWM" <==> r.value.Swimming?)
              && (code == "RUN" <==> r.value.Running?)
              && (code == "WLK" <==> r.value.SportsWalking?)
    ensures r.Success? ==>
              r.value.action == data[0] && r.value.duration == data[1] && r.value.weight == data[2]
  {
    if code !in TrainingTable then
      Failure(UnknownWorkoutType(code))
    else
      var v := TrainingTable[code];
      if |data| != Arity(v) then
        Failure(ArityMismatch(code, Arity(v), |data|))
      else
        Success(Construct(v, data))
  }

  /** The package a training is read from: its type code and its constructor's arguments. */
  function Package(t: Training): (string, seq<real>) {
    match t
    case Swimming(a, d, w, l, c) => ("SWM", [a, d, w, l, c])
    case Running(a, d, w) => ("RUN", [a, d, w])
    case SportsWalking(a, d, w, h) => ("WLK", [a, d, w, h])
  }

  /** Every training is read back from its own package. */
  lemma ReadPackageOfPackage(t: Training)
    ensures ReadPackage(Package(t).0, Package(t).1) == Success(t)
  {
  }

  /** A package that is read successfully is exactly the package of the training it yields. */
  lemma PackageOfReadPackage(code: string, data: seq<real>)
    requires ReadPackage(code, data).Success?
    ensures Package(ReadPackage(code, data).value) == (code, data)
  {
    var v := TrainingTable[code];
    var t := ReadPackage(code, data).value;
    assert t == Construct(v, data);
    match v
    case SwimmingClass =>
      assert code == "SWM" && data == [data[0], data[1], data[2], data[3], data[4]];
    case RunningClass =>
      assert code == "RUN" && data == [data[0], data[1], data[2]];
    case WalkingClass =>
      assert code == "WLK" && data == [data[0], data[1], data[2], data[3]];
  }

  /** A known code with a parameter list of the wrong length fails with the arity it expected. */
  lemma ArityMismatchReported(code: string, data: seq<real>)
    requires code in TrainingTable && |data| != Arity(TrainingTable[code])
    ensures ReadPackage(code, data)
            == Failure(ArityMismatch(code, Arity(TrainingTable[code]), |data|))
  {
  }

  // ---------------------------------------------------------------------
  // The three packages of the program's driver, and an unknown code
  // ---------------------------------------------------------------------

  /** SWM [720, 1, 80, 25, 40]: 0.9936 km at 1 km/h, burning 336 kcal. */
  lemma SwimmingPackageExample()
    ensures ReadPackage("SWM", [720.0, 1.0, 80.0, 25.0, 40.0]).Success?
    ensures var t := ReadPackage("SWM", [720.0, 1.0, 80.0, 25.0, 40.0]).value;
            Distance(t) == 0.9936 && MeanSpeed(t) == 1.0 && SpentCalories(t) == 336.0
  {
  }

  /** RUN [15000, 1, 75]: 9.75 km at 9.75 km/h; with the weight used as given, 797805 kcal. */
  lemma RunningPackageExample()
    ensures ReadPackage("RUN", [15000.0, 1.0, 75.0]).Success?
    ensures var t := ReadPackage("RUN", [15000.0, 1.0, 75.0]).value;
            Distance(t) == 9.75 && MeanSpeed(t) == 9.75 && SpentCalories(t) == 797805.0
  {
  }

  /** WLK [9000, 1, 75, 180]: 5.85 km at 5.85 km/h; the speed term adds almost nothing. */
  lemma WalkingPackageExample()
    ensures ReadPackage("WLK", [9000.0, 1.0, 75.0, 180.0]).Success?
    ensures var t := ReadPackage("WLK", [9000.0, 1.0, 75.0, 180.0]).value;
            Distance(t) == 5.85 && MeanSpeed(t) == 5.85
            && SpentCalories(t) == 157.5000248113125
  {
  }

  /** An unknown code is a failure, never a default training. */
  lemma UnknownCodeExample()
    ensures ReadPackage("XYZ", [1.0, 2.0, 3.0]) == Failure(UnknownWorkoutType("XYZ"))
  {
  }
}
