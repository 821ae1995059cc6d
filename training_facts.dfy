/** Properties of the Training formulas and of the dispatcher, stated over
    all inputs. */
module TrainingFacts {
  import opened Results
  import opened Homework

  // ---------------------------------------------------------------------------
  // Distance and speed
  // ---------------------------------------------------------------------------

  /** Distance is the action count times the step (0.65 m) or stroke
      (1.38 m) length, in kilometres; it is never negative for a
      non-negative count. */
  lemma DistancePerAction(t: Training)
    ensures GetDistance(t) == t.action * (if t.Swimming? then 0.00138 else 0.00065)
    ensures 0.0 <= t.action ==> 0.0 <= GetDistance(t)
  {
  }

  /** For every class but Swimming the mean speed is distance per hour. */
  lemma MeanSpeedFromDistance(t: Training)
    requires !t.Swimming? && t.duration != 0.0
    ensures GetMeanSpeed(t) == Ok(GetDistance(t) / t.duration)
  {
  }

  /** Swimming's speed in closed form: pool length times pool count, in
      kilometres, per hour. */
  lemma SwimmingSpeedValue(t: Training)
    requires t.Swimming? && t.duration != 0.0
    ensures GetMeanSpeed(t).value == t.lengthPool * t.countPool / MetresInKm / t.duration
  {
  }

  /** Swimming measures speed by the pool: two swims that differ only in the
      stroke count have the same speed and the same calories. */
  lemma SwimmingIgnoresAction(a1: real, a2: real, d: real, w: real, l: real, c: real)
    ensures GetMeanSpeed(Swimming(a1, d, w, l, c)) == GetMeanSpeed(Swimming(a2, d, w, l, c))
    ensures GetSpentCalories(Swimming(a1, d, w, l, c)) ==
            GetSpentCalories(Swimming(a2, d, w, l, c))
  {
    var t1, t2 := Swimming(a1, d, w, l, c), Swimming(a2, d, w, l, c);
    if d != 0.0 {
      var x, y := GetMeanSpeed(t1).value, GetMeanSpeed(t2).value;
      SwimmingSpeedValue(t1);
      SwimmingSpeedValue(t2);
      assert x == y;
      assert GetSpentCalories(t1) == Ok(SwimmingCalories(x, w));
      assert GetSpentCalories(t2) == Ok(SwimmingCalories(y, w));
    }
  }

  // ---------------------------------------------------------------------------
  // Calories
  // ---------------------------------------------------------------------------

  /** Swimming calories: the pool speed plus 1.1, times 2, times the weight. */
  lemma SwimmingCaloriesClosedForm(a: real, d: real, w: real, l: real, c: real)
    requires d != 0.0
    ensures GetSpentCalories(Swimming(a, d, w, l, c)).Ok?
    ensures GetSpentCalories(Swimming(a, d, w, l, c)).value
         == (l * c / 1000.0 / d + 1.1) * 2.0 * w
  {
    var t := Swimming(a, d, w, l, c);
    var s := GetMeanSpeed(t).value;
    SwimmingSpeedValue(t);
    assert GetSpentCalories(t) == Ok(SwimmingCalories(s, w));
  }

  /** Running calories, rewritten without the speed: 1.08 kcal per km and kg,
      less 1.2 kcal per hour and kg. */
  lemma RunningCaloriesClosedForm(t: Training)
    requires t.Running? && t.duration != 0.0
    ensures GetSpentCalories(t).Ok?
    ensures GetSpentCalories(t).value ==
      1.08 * t.weight * GetDistance(t) - 1.2 * t.weight * t.duration
  {
  }

  /** The floor term of the walking formula is a whole number `f` with
      `f <= speed^2 / height < f + 1`, and the calories are
      2.1 kcal per kg and hour plus `f` times 1.74 kcal per kg and hour. */
  lemma WalkingCaloriesFloorForm(speed: real, d: real, w: real, h: real)
    requires h != 0.0
    ensures WalkingCalories(speed, d, w, h).Ok?
    ensures
      var f := FloorDiv(speed * speed, h).value;
      WalkingCalories(speed, d, w, h).value == 2.1 * (w * d) + f * (1.74 * (w * d))
  {
  }

  /** Sports walking: while the squared speed stays below the height, the
      floor-divided term is 0 and only 0.035 kcal per kg and minute remain. */
  lemma WalkingFloorTermVanishes(t: Training)
    requires t.SportsWalking? && t.duration != 0.0
    requires GetMeanSpeed(t).value * GetMeanSpeed(t).value < t.height
    ensures GetSpentCalories(t).Ok?
    ensures GetSpentCalories(t).value == WalkWeightFactor * t.weight * t.duration * MinutesInHour
  {
    var speed := GetMeanSpeed(t).value;
    var square := speed * speed;
    SquareNonNegative(speed);
    QuotientBelowOne(square, t.height);
    assert FloorDiv(square, t.height).value == 0.0;
    assert GetSpentCalories(t) == WalkingCalories(speed, t.duration, t.weight, t.height);
    WalkingCaloriesFloorForm(speed, t.duration, t.weight, t.height);
  }

  /** A square is never negative. */
  lemma SquareNonNegative(x: real)
    ensures 0.0 <= x * x
  {
  }

  /** A non-negative number divided by a larger one lies in [0, 1). */
  lemma QuotientBelowOne(p: real, h: real)
    requires 0.0 <= p < h
    ensures 0.0 <= p / h < 1.0
  {
  }

  /** Sports walking: the floor loses less than one whole unit of
      squared-speed-per-height, so calories lie within 1.74 kcal per kg and
      hour below the formula without the floor. */
  lemma WalkingCaloriesBounds(t: Training)
    requires t.SportsWalking? && t.duration > 0.0 && t.height > 0.0 && t.weight > 0.0
    ensures GetSpentCalories(t).Ok?
    ensures
      var speed := GetMeanSpeed(t).value;
      var x := speed * speed / t.height;
      var base := 2.1 * (t.weight * t.duration);
      var slope := 1.74 * (t.weight * t.duration);
      base + (x - 1.0) * slope < GetSpentCalories(t).value <= base + x * slope
  {
    var speed := GetMeanSpeed(t).value;
    assert GetSpentCalories(t) == WalkingCalories(speed, t.duration, t.weight, t.height);
    MultiplyKeepsOrder(0.0, t.weight, t.duration);
    WalkingCaloriesBetween(speed, t.duration, t.weight, t.height);
  }

  /** The bounds of WalkingCaloriesBounds, stated on the formula's inputs. */
  lemma WalkingCaloriesBetween(speed: real, d: real, w: real, h: real)
    requires h > 0.0 && w * d > 0.0
    ensures WalkingCalories(speed, d, w, h).Ok?
    ensures
      var x := speed * speed / h;
      var cal := WalkingCalories(speed, d, w, h).value;
      2.1 * (w * d) + (x - 1.0) * (1.74 * (w * d)) < cal <= 2.1 * (w * d) + x * (1.74 * (w * d))
  {
    var x := speed * speed / h;
    var f := FloorDiv(speed * speed, h).value;
    var slope := 1.74 * (w * d);
    assert f <= x < f + 1.0;
    WalkingCaloriesFloorForm(speed, d, w, h);
    MultiplyKeepsOrder(x - 1.0, f, slope);
    MultiplyKeepsOrder(f, x, slope);
  }

  /** Multiplying by a positive number keeps the order. */
  lemma MultiplyKeepsOrder(a: real, b: real, c: real)
    requires a <= b && 0.0 < c
    ensures a * c <= b * c
    ensures a < b ==> a * c < b * c
  {
  }

  /** The base class has no calorie formula: it always raises an error that
      names the class, and so never yields a summary record. */
  lemma BaseHasNoCalories(t: Training)
    requires t.Base?
    ensures GetSpentCalories(t).Err?
    ensures GetSpentCalories(t).error.NotImplementedError?
    ensures IsInfix("Training", GetSpentCalories(t).error.message)
    ensures ShowTrainingInfo(t).Err?
  {
  }

  // ---------------------------------------------------------------------------
  // Dispatcher
  // ---------------------------------------------------------------------------

  /** read_package accepts exactly RUN with 3 values, WLK with 4 and SWM with
      5, and builds Running, SportsWalking and Swimming respectively. */
  lemma ReadPackageDispatch(tag: string, data: seq<real>)
    ensures ReadPackage(tag, data).Ok? <==>
      || (tag == "RUN" && |data| == 3)
      || (tag == "WLK" && |data| == 4)
      || (tag == "SWM" && |data| == 5)
    ensures ReadPackage(tag, data).Ok? ==>
      && (tag == "RUN" <==> ReadPackage(tag, data).value.Running?)
      && (tag == "WLK" <==> ReadPackage(tag, data).value.SportsWalking?)
      && (tag == "SWM" <==> ReadPackage(tag, data).value.Swimming?)
  {
  }

  /** The tag under which read_package knows a class. */
  function Tag(k: Kind): (tag: string)
    requires k != TrainingKind
    ensures tag in TypeTrainings && TypeTrainings[tag] == k
  {
    match k
    case RunningKind => "RUN"
    case SportsWalkingKind => "WLK"
    case SwimmingKind => "SWM"
  }

  /** Positional construction is lossless: a workout of a dispatchable class
      is rebuilt from its tag and its constructor arguments. */
  lemma ReadPackageRoundTrip(t: Training)
    requires !t.Base?
    ensures ReadPackage(Tag(KindOf(t)), Fields(t)) == Ok(t)
  {
  }

  /** Composing the dispatcher with the summary: a package yields a record
      exactly when its tag and arity are right, its duration is not zero and,
      for walking, its height is not zero. */
  lemma PackageSummary(tag: string, data: seq<real>)
    requires ReadPackage(tag, data).Ok?
    ensures ShowTrainingInfo(ReadPackage(tag, data).value).Ok? <==>
      data[1] != 0.0 && (tag == "WLK" ==> data[3] != 0.0)
  {
  }
}
