/** The workout-statistics layer of homework.py: the Training hierarchy,
    its derived quantities (distance, mean speed, calories), the summary
    record and the tag dispatcher `read_package`.

    All quantities are exact reals; every exception the Python code can raise
    on the way is an `Err` of `Result`. */
module Homework {
  import opened Results

  // ---------------------------------------------------------------------------
  // Exceptions
  // ---------------------------------------------------------------------------

  /** The two Python division operators, which raise on a zero divisor. */
  datatype Division = TrueDivision | FloorDivision

  /** The exceptions the core raises. */
  datatype Error =
    | NotImplementedError(message: string)
      // calories asked of the base class
    | ValueError(message: string)
      // unknown workout tag in read_package
    | ZeroDivisionError(op: Division)
      // `x / 0` or `x // 0`
    | TypeError(className: string, expected: nat, given: nat)
      // a class called with the wrong number of positional arguments:
      // the class called, its parameter count without self, values given

  /** `part` occurs somewhere inside `s`. */
  predicate IsInfix(part: string, s: string) {
    exists i | 0 <= i <= |s| :: part <= s[i..]
  }

  lemma InfixOfConcat(pre: string, part: string, post: string)
    ensures IsInfix(part, pre + part + post)
  {
    var s := pre + part + post;
    assert s[|pre|..] == part + post;
  }

  // ---------------------------------------------------------------------------
  // Constants of the Training classes
  // ---------------------------------------------------------------------------

  const MetresInKm: real := 1000.0        // M_IN_KM
  const MinutesInHour: real := 60.0       // MIN_IN_HR
  const StepLength: real := 0.65          // Training.LEN_STEP, metres per step
  const StrokeLength: real := 1.38        // Swimming.LEN_STEP, metres per stroke
  const RunSpeedFactor: real := 18.0      // COEFF_CALORIES_1
  const RunSpeedShift: real := 20.0       // COEFF_CALORIES_2
  const WalkWeightFactor: real := 0.035   // COEFF_CALORIES_3
  const WalkSpeedFactor: real := 0.029    // COEFF_CALORIES_4
  const SwimSpeedShift: real := 1.1       // COEFF_CALORIES_5
  const SwimWeightFactor: real := 2.0     // COEFF_CALORIES_6

  // ---------------------------------------------------------------------------
  // Data model
  // ---------------------------------------------------------------------------

  /** The summary record of one workout (the dataclass InfoMessage). */
  datatype InfoMessage = InfoMessage(
    trainingType: string,  // class name of the workout
    duration: real,        // hours
    distance: real,        // km
    speed: real,           // km/h
    calories: real         // kcal
  )

  /** One instance of a Training class; the fields are the constructor's
      arguments in declaration order and never change afterwards. */
  datatype Training =
    | Base(action: real, duration: real, weight: real)
    | Running(action: real, duration: real, weight: real)
    | SportsWalking(action: real, duration: real, weight: real, height: real)
    | Swimming(action: real, duration: real, weight: real,
               lengthPool: real, countPool: real)

  /** The classes themselves, as values that can be called with arguments. */
  datatype Kind = TrainingKind | RunningKind | SportsWalkingKind | SwimmingKind

  function KindOf(t: Training): Kind {
    match t
    case Base(_, _, _) => TrainingKind
    case Running(_, _, _) => RunningKind
    case SportsWalking(_, _, _, _) => SportsWalkingKind
    case Swimming(_, _, _, _, _) => SwimmingKind
  }

  /** `cls.__name__`. */
  function Name(k: Kind): string {
    match k
    case TrainingKind => "Training"
    case RunningKind => "Running"
    case SportsWalkingKind => "SportsWalking"
    case SwimmingKind => "Swimming"
  }

  /** `self.__class__.__name__`. */
  function ClassName(t: Training): string {
    Name(KindOf(t))
  }

  /** Number of positional parameters of the class's `__init__` (without self). */
  function Arity(k: Kind): nat {
    match k
    case TrainingKind => 3
    case RunningKind => 3
    case SportsWalkingKind => 4
    case SwimmingKind => 5
  }

  /** The constructor arguments that built `t`, in declaration order. */
  function Fields(t: Training): (s: seq<real>)
    ensures |s| == Arity(KindOf(t))
    ensures s[..3] == [t.action, t.duration, t.weight]
  {
    match t
    case Base(a, d, w) => [a, d, w]
    case Running(a, d, w) => [a, d, w]
    case SportsWalking(a, d, w, h) => [a, d, w, h]
    case Swimming(a, d, w, l, c) => [a, d, w, l, c]
  }

  /** `cls(*data)`: positional construction, which raises TypeError when the
      number of values does not match the parameters of `__init__`. */
  function Instantiate(k: Kind, data: seq<real>): (r: Result<Training, Error>)
    ensures r.Ok? <==> |data| == Arity(k)
    ensures r.Ok? ==> KindOf(r.value) == k && Fields(r.value) == data
    ensures r.Err? ==> r.error == TypeError(Name(k), Arity(k), |data|)
  {
    if |data| != Arity(k) then
      Err(TypeError(Name(k), Arity(k), |data|))
    else
      match k
      case TrainingKind => Ok(Base(data[0], data[1], data[2]))
      case RunningKind => Ok(Running(data[0], data[1], data[2]))
      case SportsWalkingKind => Ok(SportsWalking(data[0], data[1], data[2], data[3]))
      case SwimmingKind => Ok(Swimming(data[0], data[1], data[2], data[3], data[4]))
  }

  // ---------------------------------------------------------------------------
  // Python division
  // ---------------------------------------------------------------------------

  /** `x / y` on floats. */
  function TrueDiv(x: real, y: real): (r: Result<real, Error>)
    ensures r.Ok? <==> y != 0.0
    ensures r.Ok? ==> r.value * y == x
    ensures r.Err? ==> r.error == ZeroDivisionError(TrueDivision)
  {
    if y == 0.0 then Err(ZeroDivisionError(TrueDivision)) else Ok(x / y)
  }

  /** `x // y` on floats: the floor of the quotient, as a float. */
  function FloorDiv(x: real, y: real): (r: Result<real, Error>)
    ensures r.Ok? <==> y != 0.0
    ensures r.Ok? ==> r.value == r.value.Floor as real
    ensures r.Ok? ==> r.value <= x / y < r.value + 1.0
    ensures r.Err? ==> r.error == ZeroDivisionError(FloorDivision)
  {
    if y == 0.0 then Err(ZeroDivisionError(FloorDivision)) else Ok((x / y).Floor as real)
  }

  // ---------------------------------------------------------------------------
  // Derived quantities
  // ---------------------------------------------------------------------------

  /** LEN_STEP as seen from an instance: Swimming overrides it. */
  function LenStep(t: Training): real {
    if t.Swimming? then StrokeLength else StepLength
  }

  /** get_distance: kilometres covered by `action` steps or strokes. */
  function GetDistance(t: Training): real {
    t.action * LenStep(t) / MetresInKm
  }

  /** get_mean_speed: distance over duration, except that Swimming measures
      the distance by the pool instead of by strokes. */
  function GetMeanSpeed(t: Training): (r: Result<real, Error>)
    ensures r.Ok? <==> t.duration != 0.0
    ensures r.Err? ==> r.error == ZeroDivisionError(TrueDivision)
    ensures r.Ok? && !t.Swimming? ==> r.value * t.duration == GetDistance(t)
    ensures r.Ok? && t.Swimming? ==>
      r.value * t.duration * MetresInKm == t.lengthPool * t.countPool
  {
    if t.Swimming? then
      TrueDiv(t.lengthPool * t.countPool / MetresInKm, t.duration)
    else
      TrueDiv(GetDistance(t), t.duration)
  }

  /** Message of the NotImplementedError raised by the base class; the
      source writes no space between "наследника" and the class name. */
  function NotImplementedMessage(className: string): (m: string)
    ensures IsInfix(className, m)
  {
    var pre := "Метод \"get_spent_calories\" для класса наследника";
    var post := " не определен";
    InfixOfConcat(pre, className, post);
    pre + className + post
  }

  /** The instance has every value its summary needs: it is not the base
      class, nothing divides by a zero duration, and a walker's height is not
      zero (it divides the squared speed). */
  predicate Computable(t: Training) {
    && !t.Base?
    && t.duration != 0.0
    && (t.SportsWalking? ==> t.height != 0.0)
  }

  /** Running.get_spent_calories, given the mean speed. */
  function RunningCalories(speed: real, duration: real, weight: real): real {
    (RunSpeedFactor * speed - RunSpeedShift) * weight / MetresInKm
    * (duration * MinutesInHour)
  }

  /** SportsWalking.get_spent_calories, given the mean speed: the squared
      speed is floor-divided by the height, as the source writes it. */
  function WalkingCalories(speed: real, duration: real, weight: real, height: real)
    : Result<real, Error>
  {
    var ratio :- FloorDiv(speed * speed, height);
    Ok((WalkWeightFactor * weight + ratio * WalkSpeedFactor * weight)
       * duration * MinutesInHour)
  }

  /** Swimming.get_spent_calories, given the mean speed. */
  function SwimmingCalories(speed: real, weight: real): real {
    (speed + SwimSpeedShift) * SwimWeightFactor * weight
  }

  /** get_spent_calories of each class. */
  function GetSpentCalories(t: Training): (r: Result<real, Error>)
    ensures r.Ok? <==> Computable(t)
    ensures r.Err? && r.error.NotImplementedError? <==> t.Base?
    ensures r.Err? && r.error.NotImplementedError? ==>
      IsInfix(ClassName(t), r.error.message)
    ensures r.Err? && !t.Base? ==>
      r.error == ZeroDivisionError(if t.duration == 0.0 then TrueDivision else FloorDivision)
  {
    match t
    case Base(_, _, _) =>
      Err(NotImplementedError(NotImplementedMessage(ClassName(t))))
    case Running(_, duration, weight) =>
      var speed :- GetMeanSpeed(t);
      Ok(RunningCalories(speed, duration, weight))
    case SportsWalking(_, duration, weight, height) =>
      var speed :- GetMeanSpeed(t);
      WalkingCalories(speed, duration, weight, height)
    case Swimming(_, _, weight, _, _) =>
      var speed :- GetMeanSpeed(t);
      Ok(SwimmingCalories(speed, weight))
  }

  /** show_training_info: the arguments of InfoMessage are evaluated left to
      right, so a zero duration raises (in get_mean_speed) before the base
      class gets to raise NotImplementedError, and no record exists unless
      every value was computed. */
  function ShowTrainingInfo(t: Training): (r: Result<InfoMessage, Error>)
    ensures r.Ok? <==> Computable(t)
    ensures r.Ok? ==>
      && r.value.trainingType == ClassName(t)
      && r.value.duration == t.duration
      && r.value.distance == GetDistance(t)
      && GetMeanSpeed(t) == Ok(r.value.speed)
      && GetSpentCalories(t) == Ok(r.value.calories)
    ensures r.Err? ==>
      r.error == if t.duration == 0.0 then ZeroDivisionError(TrueDivision)
                 else GetSpentCalories(t).error
  {
    var distance := GetDistance(t);
    var speed :- GetMeanSpeed(t);
    var calories :- GetSpentCalories(t);
    Ok(InfoMessage(ClassName(t), t.duration, distance, speed, calories))
  }

  // ---------------------------------------------------------------------------
  // Dispatcher
  // ---------------------------------------------------------------------------

  /** The tag-to-class table of read_package. */
  const TypeTrainings: map<string, Kind> :=
    map["RUN" := RunningKind, "WLK" := SportsWalkingKind, "SWM" := SwimmingKind]

  /** Message of the ValueError for an unknown tag. */
  function InvalidTagMessage(tag: string): (m: string)
    ensures IsInfix(tag, m)
  {
    var pre := "Тип тренировки \"";
    var post := "\" не релевантен";
    InfixOfConcat(pre, tag, post);
    pre + tag + post
  }

  /** read_package: look the tag up and call the class with the sensor values. */
  function ReadPackage(tag: string, data: seq<real>): (r: Result<Training, Error>)
    ensures r.Ok? <==> tag in TypeTrainings && |data| == Arity(TypeTrainings[tag])
    ensures tag !in TypeTrainings ==>
      r.Err? && r.error.ValueError? && IsInfix(tag, r.error.message)
    ensures tag in TypeTrainings && r.Err? ==>
      r.error == TypeError(Name(TypeTrainings[tag]), Arity(TypeTrainings[tag]), |data|)
    ensures r.Ok? ==>
      && KindOf(r.value) == TypeTrainings[tag]
      && Fields(r.value) == data
      && !r.value.Base?
  {
    if tag !in TypeTrainings then
      Err(ValueError(InvalidTagMessage(tag)))
    else
      Instantiate(TypeTrainings[tag], data)
  }
}
