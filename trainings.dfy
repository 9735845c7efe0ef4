/** The formula hierarchy: the base training and its three workout types.
    Each class of the program becomes one constructor of `Workout`, holding the
    readings its constructor stores; the overridden methods become a `match`
    on that constructor. */
module Trainings {
  import opened Errors

  // Constants of the base class.
  const LEN_STEP: real := 0.65          // metres per step on land
  const M_IN_KM: real := 1000.0
  const MIN_IN_H: real := 60.0
  // Running.
  const CALORIES_MEAN_SPEED_MULTIPLIER: real := 18.0
  const CALORIES_MEAN_SPEED_SHIFT: real := 1.79
  // Sports walking.
  const CALORIES_WEIGHT_MULTIPLIER: real := 0.035
  const CALORIES_SPEED_HEIGHT_MULTIPLIER: real := 0.029
  const KMH_IN_MSEC: real := 0.278
  const CM_IN_M: real := 100.0
  // Swimming.
  const SWIMMING_LEN_STEP: real := 1.38  // metres per stroke
  const CALORIES_MEAN_DURATION_MOD: real := 1.1
  const CALORIES_MEAN_WEIGHT_MOD: real := 2.0

  /** One training object's readings: action count, duration in hours and
      weight in kilograms, plus the height (cm) of a walker or the pool length
      (m) and lap count of a swimmer. */
  datatype Workout =
    | Training(action: real, duration: real, weight: real)
    | Running(action: real, duration: real, weight: real)
    | SportsWalking(action: real, duration: real, weight: real, height: real)
    | Swimming(action: real, duration: real, weight: real, lengthPool: real, countPool: real)

  /** The name of the object's class, as the summary reports it. */
  function ClassName(w: Workout): (name: string)
    ensures w.Training? <==> name == "Training"
    ensures w.Running? <==> name == "Running"
    ensures w.SportsWalking? <==> name == "SportsWalking"
    ensures w.Swimming? <==> name == "Swimming"
  {
    match w
    case Training(_, _, _) => "Training"
    case Running(_, _, _) => "Running"
    case SportsWalking(_, _, _, _) => "SportsWalking"
    case Swimming(_, _, _, _, _) => "Swimming"
  }

  /** The step or stroke length the class sees: swimming overrides the
      base value. */
  function StepLength(w: Workout): (m: real)
    ensures m > 0.0
    ensures w.Swimming? <==> m != LEN_STEP
  {
    if w.Swimming? then SWIMMING_LEN_STEP else LEN_STEP
  }

  /** Distance in kilometres: the base formula, or the swimming override that
      multiplies in the other order with the stroke length. */
  function Distance(w: Workout): (km: real)
    ensures km * M_IN_KM == w.action * StepLength(w)
    ensures w.action >= 0.0 ==> km >= 0.0
    ensures km == 0.0 <==> w.action == 0.0
  {
    match w
    case Swimming(action, _, _, _, _) => SWIMMING_LEN_STEP * action / M_IN_KM
    case _ => w.action * LEN_STEP / M_IN_KM
  }

  /** Mean speed in km/h.  The base divides its own distance by the duration;
      swimming divides the pool length times the lap count, in kilometres, by
      the duration.  A zero duration raises. */
  function MeanSpeed(w: Workout): (r: Result<real>)
    ensures r.Err? <==> w.duration == 0.0
    ensures r.Err? ==> r.error == DivisionByZero
    ensures r.Ok? && !w.Swimming? ==> r.value * w.duration == Distance(w)
    ensures r.Ok? && w.Swimming? ==> r.value * w.duration * M_IN_KM == w.lengthPool * w.countPool
  {
    if w.duration == 0.0 then Err(DivisionByZero)
    else
      match w
      case Swimming(_, duration, _, lengthPool, countPool) =>
        Ok(lengthPool * countPool / M_IN_KM / duration)
      case _ => Ok(Distance(w) / w.duration)
  }

  /** Running calories from the mean speed, weight and duration. */
  function RunningCalories(speed: real, duration: real, weight: real): (kcal: real)
    ensures speed >= 0.0 && duration >= 0.0 && weight >= 0.0 ==> kcal >= 0.0
    ensures duration == 0.0 || weight == 0.0 ==> kcal == 0.0
  {
    (CALORIES_MEAN_SPEED_MULTIPLIER * speed + CALORIES_MEAN_SPEED_SHIFT) * weight
      / M_IN_KM * (duration * MIN_IN_H)
  }

  /** Sports-walking calories from the mean speed, duration, weight and the
      height in centimetres, which must be non-zero. */
  function WalkingCalories(speed: real, duration: real, weight: real, height: real): (kcal: real)
    requires height != 0.0
    ensures duration >= 0.0 && weight >= 0.0 && height > 0.0 ==> kcal >= 0.0
    ensures duration == 0.0 || weight == 0.0 ==> kcal == 0.0
  {
    var ms := speed * KMH_IN_MSEC;
    (CALORIES_WEIGHT_MULTIPLIER * weight
      + (ms * ms / (height / CM_IN_M)) * CALORIES_SPEED_HEIGHT_MULTIPLIER * weight)
      * duration * MIN_IN_H
  }

  /** Swimming calories as the override writes them: the swimming speed is
      recomputed inline from the pool readings rather than asked of the
      speed method. */
  function SwimmingCalories(lengthPool: real, countPool: real, duration: real, weight: real): (kcal: real)
    requires duration != 0.0
    ensures lengthPool * countPool >= 0.0 && duration > 0.0 && weight >= 0.0 ==> kcal >= 0.0
  {
    (lengthPool * countPool / M_IN_KM / duration + CALORIES_MEAN_DURATION_MOD)
      * CALORIES_MEAN_WEIGHT_MOD * weight * duration
  }

  /** Calories of the object's class.  The base raises "not implemented" with
      the class name before computing anything; running and walking ask the
      speed method first, so a zero duration raises there; walking then
      divides by its height; swimming divides by the duration inline. */
  function Calories(w: Workout): (r: Result<real>)
    ensures w.Training? ==> r == Err(NotImplemented("Training"))
    ensures r.Ok? <==> !w.Training? && w.duration != 0.0 && !(w.SportsWalking? && w.height == 0.0)
    ensures r.Err? && !w.Training? ==> r.error == DivisionByZero
  {
    match w
    case Training(_, _, _) => Err(NotImplemented(ClassName(w)))
    case Running(_, duration, weight) =>
      var s := MeanSpeed(w);
      if s.Err? then Err(s.error) else Ok(RunningCalories(s.value, duration, weight))
    case SportsWalking(_, duration, weight, height) =>
      var s := MeanSpeed(w);
      if s.Err? then Err(s.error)
      else if height / CM_IN_M == 0.0 then Err(DivisionByZero)
      else Ok(WalkingCalories(s.value, duration, weight, height))
    case Swimming(_, duration, weight, lengthPool, countPool) =>
      if duration == 0.0 then Err(DivisionByZero)
      else Ok(SwimmingCalories(lengthPool, countPool, duration, weight))
  }

  /** Readings for which every figure of a concrete class's summary is
      defined and non-negative: a positive duration and weight, a non-negative
      action count, a positive height for a walker and non-negative pool
      readings for a swimmer. */
  predicate ValidReadings(w: Workout)
  {
    && w.action >= 0.0 && w.duration > 0.0 && w.weight > 0.0
    && (w.SportsWalking? ==> w.height > 0.0)
    && (w.Swimming? ==> w.lengthPool >= 0.0 && w.countPool >= 0.0)
  }

  /** The bare base class has no calorie formula, whatever its readings. */
  lemma BaseCaloriesNotImplemented(action: real, duration: real, weight: real)
    ensures Calories(Training(action, duration, weight)) == Err(NotImplemented("Training"))
  {
  }

  /** The base speed is non-negative for valid readings. */
  lemma MeanSpeedNonNegative(w: Workout)
    requires ValidReadings(w)
    ensures MeanSpeed(w).Ok? && MeanSpeed(w).value >= 0.0
  {
  }

  /** Distance, speed and calories are non-negative for valid readings of
      every concrete class. */
  lemma CaloriesNonNegative(w: Workout)
    requires ValidReadings(w) && !w.Training?
    ensures Distance(w) >= 0.0
    ensures MeanSpeed(w).Ok? && MeanSpeed(w).value >= 0.0
    ensures Calories(w).Ok? && Calories(w).value >= 0.0
  {
  }

  /** The swimming speed depends on the pool readings alone, not on the stroke
      count. */
  lemma SwimmingSpeedIgnoresAction(a1: real, a2: real, duration: real, weight: real,
                                   lengthPool: real, countPool: real)
    ensures MeanSpeed(Swimming(a1, duration, weight, lengthPool, countPool))
         == MeanSpeed(Swimming(a2, duration, weight, lengthPool, countPool))
  {
    if duration != 0.0 {
      assert MeanSpeed(Swimming(a1, duration, weight, lengthPool, countPool)).value
          == MeanSpeed(Swimming(a2, duration, weight, lengthPool, countPool)).value;
    }
  }

  /** The inline swimming formula equals (mean speed + 1.1) * 2 * weight *
      duration, the formula written with the speed method. */
  lemma SwimmingCaloriesFromMeanSpeed(w: Workout)
    requires w.Swimming? && w.duration != 0.0
    ensures Calories(w) == Ok((MeanSpeed(w).value + CALORIES_MEAN_DURATION_MOD)
                              * CALORIES_MEAN_WEIGHT_MOD * w.weight * w.duration)
  {
    assert MeanSpeed(w).value == w.lengthPool * w.countPool / M_IN_KM / w.duration;
    var c := Calories(w);
    assert c.Ok? && c.value == SwimmingCalories(w.lengthPool, w.countPool, w.duration, w.weight);
    assert c.value == (MeanSpeed(w).value + CALORIES_MEAN_DURATION_MOD)
                      * CALORIES_MEAN_WEIGHT_MOD * w.weight * w.duration;
  }

  /** Running and walking use the base distance and speed unchanged. */
  lemma LandSpeedIsBaseFormula(w: Workout)
    requires (w.Running? || w.SportsWalking?) && w.duration != 0.0
    ensures Distance(w) == w.action * LEN_STEP / M_IN_KM
    ensures MeanSpeed(w) == Ok(w.action * LEN_STEP / M_IN_KM / w.duration)
  {
  }
}
