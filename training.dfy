/**
 * The per-workout metric calculator of homework.py: the three workout kinds,
 * their distance, mean speed and calorie formulas, and the summary record
 * that `show_training_info` builds.
 *
 * Every quantity is an exact `real`; the model states the formulas as
 * written, not the rounding of Python floats.
 */
module Training {

  // Constants of the base class `Training`.
  const LenStep: real := 0.65            // metres per step, running and walking
  const MetresInKm: real := 1000.0
  const MinutesInHour: real := 60.0

  // Constants of `Running`.
  const RunSpeedMultiplier: real := 18.0
  const RunSpeedShift: real := 1.79

  // Constants of `SportsWalking`.
  const WalkWeightMultiplier: real := 0.035
  const WalkSpeedHeightMultiplier: real := 0.029
  const KmhToMs: real := 0.278
  const CmInMetre: real := 100.0

  // Constants of `Swimming`.
  const SwimLenStep: real := 1.38         // metres per stroke
  const SwimSpeedShift: real := 1.1
  const SwimWeightMultiplier: real := 2.0

  /** One workout as read from the sensors; the constructors are the three
      subclasses of `Training`, with their constructor parameters in order. */
  datatype Workout =
    | Running(action: real, duration: real, weight: real)
    | SportsWalking(action: real, duration: real, weight: real, height: real)
    | Swimming(action: real, duration: real, weight: real, lengthPool: real, countPool: real)

  /** The `InfoMessage` dataclass: the summary of one workout. */
  datatype InfoMessage = InfoMessage(
    trainingType: string,
    duration: real,
    distance: real,
    speed: real,
    calories: real)

  /** The three subclasses of `Training` that can be instantiated. */
  datatype TrainingClass = SwimmingClass | RunningClass | SportsWalkingClass

  /** The class a workout is an instance of. */
  function ClassOf(w: Workout): TrainingClass
  {
    match w
    case Running(_, _, _) => RunningClass
    case SportsWalking(_, _, _, _) => SportsWalkingClass
    case Swimming(_, _, _, _, _) => SwimmingClass
  }

  /** A class's `__name__`. */
  function ClassName(c: TrainingClass): string
  {
    match c
    case RunningClass => "Running"
    case SportsWalkingClass => "SportsWalking"
    case SwimmingClass => "Swimming"
  }

  /** The class name reported in the summary. */
  function TypeName(w: Workout): string
  {
    ClassName(ClassOf(w))
  }

  /** The `LEN_STEP` a workout sees: Swimming overrides the inherited one. */
  function StepLength(w: Workout): real
  {
    if w.Swimming? then SwimLenStep else LenStep
  }

  /** The inputs on which every getter is defined: Python raises
      ZeroDivisionError on a zero duration, and SportsWalking also on a
      zero height. */
  predicate Computable(w: Workout)
  {
    w.duration != 0.0 && (w.SportsWalking? ==> w.height != 0.0)
  }

  /** Physically sensible inputs: nothing negative, a positive duration and,
      for walking, a positive height. */
  predicate Sensible(w: Workout)
  {
    && w.action >= 0.0 && w.duration > 0.0 && w.weight >= 0.0
    && (w.SportsWalking? ==> w.height > 0.0)
    && (w.Swimming? ==> w.lengthPool >= 0.0 && w.countPool >= 0.0)
  }

  /** `get_distance`: kilometres covered by `action` steps (or strokes). */
  function Distance(w: Workout): (km: real)
    ensures km * MetresInKm == w.action * StepLength(w)
    ensures w.action >= 0.0 ==> km >= 0.0
  {
    w.action * StepLength(w) / MetresInKm
  }

  /** Length of the pool swum, in kilometres (Swimming's speed numerator). */
  function PoolDistance(w: Workout): (km: real)
    requires w.Swimming?
    ensures km * MetresInKm == w.lengthPool * w.countPool
  {
    w.lengthPool * w.countPool / MetresInKm
  }

  /** `get_mean_speed`, km/h: the step distance over the duration, except
      that Swimming divides the pool distance instead. */
  function MeanSpeed(w: Workout): (kmh: real)
    requires w.duration != 0.0
    ensures !w.Swimming? ==> kmh * w.duration == Distance(w)
    ensures w.Swimming? ==> kmh * w.duration * MetresInKm == w.lengthPool * w.countPool
  {
    match w
    case Swimming(_, duration, _, lengthPool, countPool) =>
      lengthPool * countPool / MetresInKm / duration
    case _ => Distance(w) / w.duration
  }

  /** `Running.get_spent_calories`; with the speed eliminated, the calories
      are (18 * km + 1.79 * hours) * weight * 60 / 1000. */
  function RunningCalories(w: Workout): (kcal: real)
    requires w.Running? && w.duration != 0.0
    ensures kcal == (RunSpeedMultiplier * Distance(w) + RunSpeedShift * w.duration)
                      * w.weight * MinutesInHour / MetresInKm
  {
    RunningFormula(w.weight, w.duration, MeanSpeed(w), Distance(w));
    (RunSpeedMultiplier * MeanSpeed(w) + RunSpeedShift)
      * w.weight / MetresInKm * (w.duration * MinutesInHour)
  }

  /** `SportsWalking.get_spent_calories`; with the speed eliminated, it is
      the closed form `WalkingCaloriesByDistance`. */
  function WalkingCalories(w: Workout): (kcal: real)
    requires w.SportsWalking? && Computable(w)
    ensures kcal == WalkingCaloriesByDistance(w.weight, w.duration, w.height, Distance(w))
  {
    WalkingFormula(w.weight, w.duration, w.height, MeanSpeed(w), Distance(w));
    WalkingCaloriesBySpeed(w.weight, w.duration, w.height, MeanSpeed(w))
  }

  /** The walking formula as written, on a mean speed in km/h: the speed is
      converted to m/s, the height to metres and the duration to minutes. */
  function WalkingCaloriesBySpeed(weight: real, hours: real, height: real, kmh: real): real
    requires height != 0.0
  {
    var speedMs := kmh * KmhToMs;
    var heightM := height / CmInMetre;
    var minutes := hours * MinutesInHour;
    (WalkWeightMultiplier * weight
      + (speedMs * speedMs / heightM) * WalkSpeedHeightMultiplier * weight) * minutes
  }

  /** Walking calories from the distance rather than the speed:
      weight * 60 * (0.035 * hours + 0.029 * 100 * (0.278 * km)^2 / (height * hours)). */
  function WalkingCaloriesByDistance(weight: real, hours: real, height: real, km: real): real
    requires hours != 0.0 && height != 0.0
  {
    weight * MinutesInHour
      * (WalkWeightMultiplier * hours
         + WalkSpeedHeightMultiplier * (CmInMetre * Square(KmhToMs * km) / (height * hours)))
  }

  /** `Swimming.get_spent_calories`; with the speed eliminated, the calories
      are 2 * weight * (pool km + 1.1 * hours). */
  function SwimmingCalories(w: Workout): (kcal: real)
    requires w.Swimming? && w.duration != 0.0
    ensures kcal == SwimWeightMultiplier * w.weight * (PoolDistance(w) + SwimSpeedShift * w.duration)
  {
    (MeanSpeed(w) + SwimSpeedShift) * (SwimWeightMultiplier * w.weight * w.duration)
  }

  /** `get_spent_calories`, dispatched to the workout's subclass. Each
      formula, with the mean speed eliminated, depends only on the distance
      (the pool distance for a swim), the duration, the weight and, for a
      walk, the height. */
  function SpentCalories(w: Workout): (kcal: real)
    requires Computable(w)
    ensures w.Running? ==>
              kcal == (RunSpeedMultiplier * Distance(w) + RunSpeedShift * w.duration)
                        * w.weight * MinutesInHour / MetresInKm
    ensures w.SportsWalking? ==>
              kcal == WalkingCaloriesByDistance(w.weight, w.duration, w.height, Distance(w))
    ensures w.Swimming? ==>
              kcal == SwimWeightMultiplier * w.weight * (PoolDistance(w) + SwimSpeedShift * w.duration)
  {
    if w.Running? then RunningCalories(w)
    else if w.SportsWalking? then WalkingCalories(w)
    else SwimmingCalories(w)
  }

  function Square(x: real): real
  {
    x * x
  }

  /** The running formula with the speed replaced by the distance: if
      speed * t == d, then (18 speed + 1.79) W / 1000 * 60 t
      == (18 d + 1.79 t) W 60 / 1000. */
  lemma RunningFormula(weight: real, t: real, speed: real, d: real)
    requires speed * t == d
    ensures (RunSpeedMultiplier * speed + RunSpeedShift) * weight / MetresInKm * (t * MinutesInHour)
            == (RunSpeedMultiplier * d + RunSpeedShift * t) * weight * MinutesInHour / MetresInKm
  {
    calc {
      (RunSpeedMultiplier * speed + RunSpeedShift) * weight / MetresInKm * (t * MinutesInHour);
      (RunSpeedMultiplier * (speed * t) + RunSpeedShift * t) * weight * MinutesInHour / MetresInKm;
    }
  }

  /** The walking formula with the speed replaced by the distance: if
      speed * t == km, the formula of `SportsWalking.get_spent_calories` on
      that speed is `WalkingCaloriesByDistance` on that distance. */
  lemma WalkingFormula(weight: real, t: real, h: real, speed: real, km: real)
    requires t != 0.0 && h != 0.0 && speed * t == km
    ensures WalkingCaloriesBySpeed(weight, t, h, speed) == WalkingCaloriesByDistance(weight, t, h, km)
  {
    var s := speed * KmhToMs;
    var q := KmhToMs * km;
    var r := s * s / (h / CmInMetre);
    var z := CmInMetre * Square(q) / (h * t);
    assert s * t == q;
    assert r * t == z by {
      assert s == q / t;
      assert r == CmInMetre * (s * s) / h;
    }
    calc {
      (WalkWeightMultiplier * weight + r * WalkSpeedHeightMultiplier * weight) * (t * MinutesInHour);
      weight * MinutesInHour * (WalkWeightMultiplier * t + WalkSpeedHeightMultiplier * (r * t));
    }
  }

  /** `show_training_info`: the summary reports the class name, the input
      duration and the three getters of the same workout; its speed times its
      duration gives back the distance the speed was computed from. */
  function ShowTrainingInfo(w: Workout): (info: InfoMessage)
    requires Computable(w)
    ensures info.trainingType == TypeName(w) && info.duration == w.duration
    ensures info.distance == Distance(w) && info.speed == MeanSpeed(w)
    ensures info.calories == SpentCalories(w)
    ensures info.speed * info.duration ==
              if w.Swimming? then PoolDistance(w) else info.distance
  {
    InfoMessage(TypeName(w), w.duration, Distance(w), MeanSpeed(w), SpentCalories(w))
  }

  /** Each subclass reports a different name, so the summary identifies the
      kind of workout. */
  lemma TypeNameIdentifiesKind(a: Workout, b: Workout)
    ensures TypeName(a) == TypeName(b) <==>
              (a.Running? && b.Running?) || (a.SportsWalking? && b.SportsWalking?)
              || (a.Swimming? && b.Swimming?)
  {
  }

  /** SportsWalking inherits `LEN_STEP` and both getters from `Training`, so a
      walk reports the same distance and speed as a run of the same steps and
      duration; height only enters the calories. */
  lemma WalkingSharesRunningMetrics(action: real, duration: real, weight: real, height: real)
    requires duration != 0.0
    ensures Distance(SportsWalking(action, duration, weight, height)) == Distance(Running(action, duration, weight))
    ensures MeanSpeed(SportsWalking(action, duration, weight, height)) == MeanSpeed(Running(action, duration, weight))
  {
  }

  /** Distance is additive: splitting the steps of a workout into two parts
      splits the distance the same way. */
  lemma {:induction false} DistanceAdditive(w: Workout, a: real, b: real)
    requires w.action == a + b
    ensures Distance(w) == Distance(w.(action := a)) + Distance(w.(action := b))
  {
  }

  /** Swimming's speed ignores the stroke count: changing `action` moves the
      distance but never the speed. */
  lemma SwimmingSpeedIgnoresAction(a: real, a': real, duration: real, weight: real, lengthPool: real, countPool: real)
    requires duration != 0.0
    ensures MeanSpeed(Swimming(a', duration, weight, lengthPool, countPool))
            == MeanSpeed(Swimming(a, duration, weight, lengthPool, countPool))
    ensures a != a' ==> Distance(Swimming(a', duration, weight, lengthPool, countPool))
                        != Distance(Swimming(a, duration, weight, lengthPool, countPool))
  {
  }

  /** Multiplying both sides of an inequality by a non-negative factor keeps it. */
  lemma MulLeft(c: real, x: real, y: real)
    requires c >= 0.0 && x <= y
    ensures c * x <= c * y
  {
  }

  /** Multiplying both sides of a strict inequality by a positive factor keeps it. */
  lemma MulLeftStrict(c: real, x: real, y: real)
    requires c > 0.0 && x < y
    ensures c * x < c * y
  {
  }

  /** Squaring is monotone on non-negative numbers. */
  lemma SquareMonotone(x: real, y: real)
    requires 0.0 <= x <= y
    ensures x * x <= y * y
  {
    MulLeft(x, x, y);
    MulLeft(y, x, y);
  }

  /** Mean speed grows with the step count when the duration is positive. */
  lemma SpeedMonotoneInSteps(w: Workout, w': Workout)
    requires !w.Swimming? && !w'.Swimming? && w.duration > 0.0 && w'.duration == w.duration
    requires w.action <= w'.action
    ensures MeanSpeed(w) <= MeanSpeed(w')
  {
    var d, x, y := w.duration, MeanSpeed(w), MeanSpeed(w');
    assert Distance(w) <= Distance(w');
    if y < x {
      MulLeftStrict(d, y, x);
      assert false;
    }
  }

  /** Dividing both sides of an inequality by a positive number keeps it. */
  lemma DivRight(x: real, y: real, c: real)
    requires c > 0.0 && x <= y
    ensures x / c <= y / c
  {
  }

  /** More steps in the same time never burn fewer calories on a run. */
  lemma {:induction false} RunningCaloriesMonotoneInSteps(a: real, a': real, duration: real, weight: real)
    requires 0.0 <= a <= a' && duration > 0.0 && weight >= 0.0
    ensures SpentCalories(Running(a, duration, weight)) <= SpentCalories(Running(a', duration, weight))
  {
    var w, w' := Running(a, duration, weight), Running(a', duration, weight);
    var x := RunSpeedMultiplier * Distance(w) + RunSpeedShift * duration;
    var x' := RunSpeedMultiplier * Distance(w') + RunSpeedShift * duration;
    MulLeft(weight, x, x');
    assert SpentCalories(w) == weight * x * MinutesInHour / MetresInKm;
    assert SpentCalories(w') == weight * x' * MinutesInHour / MetresInKm;
  }

  /** More steps in the same time never burn fewer calories on a walk: the
      calories grow with the squared distance. */
  lemma {:induction false} WalkingCaloriesMonotoneInSteps(a: real, a': real, duration: real, weight: real, height: real)
    requires 0.0 <= a <= a' && duration > 0.0 && weight >= 0.0 && height > 0.0
    ensures SpentCalories(SportsWalking(a, duration, weight, height))
            <= SpentCalories(SportsWalking(a', duration, weight, height))
  {
    var w, w' := SportsWalking(a, duration, weight, height), SportsWalking(a', duration, weight, height);
    var q, q' := KmhToMs * Distance(w), KmhToMs * Distance(w');
    SquareMonotone(q, q');
    var c := height * duration;
    MulLeftStrict(height, 0.0, duration);
    DivRight(CmInMetre * Square(q), CmInMetre * Square(q'), c);
    var x := WalkWeightMultiplier * duration + WalkSpeedHeightMultiplier * (CmInMetre * Square(q) / c);
    var x' := WalkWeightMultiplier * duration + WalkSpeedHeightMultiplier * (CmInMetre * Square(q') / c);
    MulLeft(weight * MinutesInHour, x, x');
    assert WalkingCaloriesByDistance(weight, duration, height, Distance(w)) == weight * MinutesInHour * x;
    assert WalkingCaloriesByDistance(weight, duration, height, Distance(w')) == weight * MinutesInHour * x';
  }

  /** More pool lengths in the same time never burn fewer calories. */
  lemma {:induction false} SwimmingCaloriesMonotoneInLaps(w: Workout, laps: real)
    requires Sensible(w) && w.Swimming? && w.countPool <= laps
    ensures SpentCalories(w) <= SpentCalories(Swimming(w.action, w.duration, w.weight, w.lengthPool, laps))
  {
    var w' := Swimming(w.action, w.duration, w.weight, w.lengthPool, laps);
    MulLeft(w.lengthPool, w.countPool, laps);
    assert PoolDistance(w) <= PoolDistance(w');
    MulLeft(SwimWeightMultiplier * w.weight,
            PoolDistance(w) + SwimSpeedShift * w.duration,
            PoolDistance(w') + SwimSpeedShift * w.duration);
  }

  /** Scaling one factor of a product scales the product. */
  lemma ScaleFactor(k: real, weight: real, x: real, c: real)
    ensures x * (k * weight) * c == k * (x * weight * c)
    ensures c * (k * weight) * x == k * (c * weight * x)
  {
  }

  /** Every calorie formula is proportional to the weight. */
  lemma {:induction false} CaloriesProportionalToWeight(w: Workout, k: real)
    requires Computable(w)
    ensures SpentCalories(w.(weight := k * w.weight)) == k * SpentCalories(w)
  {
    var v := w.(weight := k * w.weight);
    assert v.duration == w.duration && v.weight == k * w.weight;
    assert Distance(v) == Distance(w);
    if w.Running? {
      var x := RunSpeedMultiplier * Distance(w) + RunSpeedShift * w.duration;
      ScaleFactor(k, w.weight, x, MinutesInHour / MetresInKm);
    } else if w.SportsWalking? {
      assert v.height == w.height;
      ScaleFactor(k, w.weight, MinutesInHour,
        WalkWeightMultiplier * w.duration
          + WalkSpeedHeightMultiplier * (CmInMetre * Square(KmhToMs * Distance(w)) / (w.height * w.duration)));
    } else {
      assert PoolDistance(v) == PoolDistance(w);
      ScaleFactor(k, w.weight, PoolDistance(w) + SwimSpeedShift * w.duration, SwimWeightMultiplier);
    }
  }

  /** On sensible inputs every formula gives a non-negative number of
      calories. */
  lemma {:induction false} CaloriesNonNegative(w: Workout)
    requires Sensible(w)
    ensures Computable(w) && SpentCalories(w) >= 0.0
  {
    if w.Running? {
      RunningCaloriesNonNegative(w);
    } else if w.SportsWalking? {
      WalkingCaloriesNonNegative(w);
    } else {
      SwimmingCaloriesNonNegative(w);
    }
  }

  /** Running: both terms of the speed factor are non-negative. */
  lemma RunningCaloriesNonNegative(w: Workout)
    requires w.Running? && Sensible(w)
    ensures Computable(w) && RunningCalories(w) >= 0.0
  {
    var x := RunSpeedMultiplier * Distance(w) + RunSpeedShift * w.duration;
    MulLeft(w.weight, 0.0, x);
    assert RunningCalories(w) == x * w.weight * MinutesInHour / MetresInKm;
  }

  /** SportsWalking: the squared-speed term over a positive height and
      duration is non-negative. */
  lemma WalkingCaloriesNonNegative(w: Workout)
    requires w.SportsWalking? && Sensible(w)
    ensures Computable(w) && WalkingCalories(w) >= 0.0
  {
    var q := KmhToMs * Distance(w);
    MulLeft(q, 0.0, q);
    MulLeftStrict(w.height, 0.0, w.duration);
    var x := WalkWeightMultiplier * w.duration
             + WalkSpeedHeightMultiplier * (CmInMetre * Square(q) / (w.height * w.duration));
    DivRight(0.0, CmInMetre * Square(q), w.height * w.duration);
    MulLeft(w.weight * MinutesInHour, 0.0, x);
    assert WalkingCaloriesByDistance(w.weight, w.duration, w.height, Distance(w)) == w.weight * MinutesInHour * x;
  }

  /** Swimming: the pool distance is a product of non-negative values. */
  lemma SwimmingCaloriesNonNegative(w: Workout)
    requires w.Swimming? && Sensible(w)
    ensures Computable(w) && SwimmingCalories(w) >= 0.0
  {
    MulLeft(w.lengthPool, 0.0, w.countPool);
    var x := PoolDistance(w) + SwimSpeedShift * w.duration;
    MulLeft(SwimWeightMultiplier * w.weight, 0.0, x);
    assert SwimmingCalories(w) == SwimWeightMultiplier * w.weight * x;
  }
}
