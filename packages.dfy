/**
 * The dispatcher of homework.py: the `TRAIN_TYPES` table from a three-letter
 * code to a workout class, and `read_package`, which builds a workout from a
 * positional list of sensor values.
 */
module Packages {
  import opened Training

  /** What `read_package` raises: ValueError for a code outside the table,
      TypeError when `*data` does not match the constructor's parameters. */
  datatype Error =
    | UnknownWorkoutType(code: string)
    | ArgumentCountMismatch(expected: nat, given: nat)

  datatype Result<T> = Ok(value: T) | Err(error: Error)

  /** `TRAIN_TYPES`. */
  const TrainTypes: map<string, TrainingClass> :=
    map["SWM" := SwimmingClass, "RUN" := RunningClass, "WLK" := SportsWalkingClass]

  /** Number of positional parameters of each class's constructor. */
  function Arity(c: TrainingClass): nat
  {
    match c
    case SwimmingClass => 5
    case RunningClass => 3
    case SportsWalkingClass => 4
  }

  /** The code under which `TRAIN_TYPES` lists a class. */
  function Code(c: TrainingClass): (code: string)
    ensures code in TrainTypes && TrainTypes[code] == c
  {
    match c
    case SwimmingClass => "SWM"
    case RunningClass => "RUN"
    case SportsWalkingClass => "WLK"
  }

  /** The constructor arguments of a workout, in positional order. */
  function Fields(w: Workout): (data: seq<real>)
    ensures |data| == Arity(ClassOf(w))
  {
    match w
    case Running(action, duration, weight) => [action, duration, weight]
    case SportsWalking(action, duration, weight, height) => [action, duration, weight, height]
    case Swimming(action, duration, weight, lengthPool, countPool) =>
      [action, duration, weight, lengthPool, countPool]
  }

  /** `cls(*data)`: the values fill the constructor's parameters in order,
      and a list of any other length is refused. */
  function Instantiate(c: TrainingClass, data: seq<real>): (r: Result<Workout>)
    ensures r.Ok? <==> |data| == Arity(c)
    ensures r.Err? ==> r.error == ArgumentCountMismatch(Arity(c), |data|)
    ensures r.Ok? ==> ClassOf(r.value) == c && Fields(r.value) == data
  {
    if |data| != Arity(c) then Err(ArgumentCountMismatch(Arity(c), |data|))
    else
      match c
      case SwimmingClass => Ok(Swimming(data[0], data[1], data[2], data[3], data[4]))
      case RunningClass => Ok(Running(data[0], data[1], data[2]))
      case SportsWalkingClass => Ok(SportsWalking(data[0], data[1], data[2], data[3]))
  }

  /** `read_package`: look the code up, then instantiate its class. It
      succeeds exactly for a known code with the right number of values,
      and a success gives back both the code and the values. */
  function ReadPackage(workoutType: string, data: seq<real>): (r: Result<Workout>)
    ensures workoutType !in TrainTypes ==> r == Err(UnknownWorkoutType(workoutType))
    ensures r.Ok? <==> workoutType in TrainTypes && |data| == Arity(TrainTypes[workoutType])
    ensures r.Ok? ==> Code(ClassOf(r.value)) == workoutType && Fields(r.value) == data
  {
    if workoutType !in TrainTypes then Err(UnknownWorkoutType(workoutType))
    else Instantiate(TrainTypes[workoutType], data)
  }

  /** The table knows exactly the three codes. */
  lemma KnownCodes()
    ensures TrainTypes.Keys == {"SWM", "RUN", "WLK"}
    ensures forall code :: code in TrainTypes ==> Code(TrainTypes[code]) == code
  {
  }

  /** Any code outside SWM, RUN and WLK is refused, whatever the values. */
  lemma UnknownCodeFails(workoutType: string, data: seq<real>)
    requires workoutType != "SWM" && workoutType != "RUN" && workoutType != "WLK"
    ensures ReadPackage(workoutType, data) == Err(UnknownWorkoutType(workoutType))
  {
  }

  /** A known code with a list of the wrong length is refused, naming the
      expected count: 5 for SWM, 3 for RUN, 4 for WLK. */
  lemma WrongCountFails(workoutType: string, data: seq<real>)
    requires workoutType in TrainTypes
    requires |data| != (if workoutType == "SWM" then 5 else if workoutType == "RUN" then 3 else 4)
    ensures ReadPackage(workoutType, data).Err?
    ensures ReadPackage(workoutType, data).error.ArgumentCountMismatch?
  {
  }

  /** Round trip: reading a workout's own code and values rebuilds it. */
  lemma {:induction false} ReadPackageRoundTrip(w: Workout)
    ensures ReadPackage(Code(ClassOf(w)), Fields(w)) == Ok(w)
  {
  }

  /** Every workout the calculator handles can come out of the dispatcher:
      some package reads to it. */
  lemma EveryWorkoutIsReadable(w: Workout)
    ensures exists code, data :: ReadPackage(code, data) == Ok(w)
  {
    ReadPackageRoundTrip(w);
  }

  /** Converse: a package that is read successfully is its workout's code
      and values, so two packages that read to the same workout are equal. */
  lemma ReadPackageInjective(code: string, data: seq<real>, code': string, data': seq<real>)
    requires ReadPackage(code, data).Ok? && ReadPackage(code', data').Ok?
    requires ReadPackage(code, data) == ReadPackage(code', data')
    ensures code == code' && data == data'
  {
  }

  /** The class the dispatcher picks reports the name of the class the code
      maps to: SWM is Swimming, RUN is Running, WLK is SportsWalking. */
  lemma ReadPackageKind(workoutType: string, data: seq<real>)
    requires ReadPackage(workoutType, data).Ok?
    ensures TypeName(ReadPackage(workoutType, data).value) ==
              if workoutType == "SWM" then "Swimming"
              else if workoutType == "RUN" then "Running"
              else "SportsWalking"
  {
  }
}
