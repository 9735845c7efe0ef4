/** Training objects as the program holds them.  The readings are stored by
    the constructor and never written again; the inherited distance and speed
    methods also store what they compute in the attributes `dist` and `speed`,
    which no formula reads back. */
module Instances {
  import opened Errors
  import opened Trainings
  import opened Summary

  /** The two cached attributes; `None` is an attribute not yet set. */
  datatype Cache = Cache(dist: Option<real>, speed: Option<real>)

  /** The attributes after the distance method: the inherited method stores
      the distance, the swimming override stores nothing. */
  function CacheAfterDistance(w: Workout, c: Cache): (c': Cache)
    ensures c'.speed == c.speed
    ensures w.Swimming? ==> c' == c
    ensures !w.Swimming? ==> c'.dist == Some(Distance(w))
  {
    if w.Swimming? then c else c.(dist := Some(Distance(w)))
  }

  /** The attributes after the speed method: the inherited method first runs
      the distance method, then stores the speed unless the division raised;
      the swimming override stores nothing. */
  function CacheAfterSpeed(w: Workout, c: Cache): (c': Cache)
    ensures w.Swimming? ==> c' == c
    ensures !w.Swimming? ==> c'.dist == Some(Distance(w))
    ensures !w.Swimming? && w.duration == 0.0 ==> c'.speed == c.speed
    ensures !w.Swimming? && w.duration != 0.0 ==> c'.speed.Some? && MeanSpeed(w) == Ok(c'.speed.value)
  {
    var d := CacheAfterDistance(w, c);
    var s := MeanSpeed(w);
    if w.Swimming? || s.Err? then d else d.(speed := Some(s.value))
  }

  class TrainingObject {
    const workout: Workout
    var dist: Option<real>
    var speed: Option<real>

    function Cached(): (c: Cache)
      reads this
      ensures c.dist == dist && c.speed == speed
    {
      Cache(dist, speed)
    }

    /** Builds an object of the class `w` names from its readings; no
        attribute is cached yet. */
    constructor (w: Workout)
      ensures workout == w && Cached() == Cache(None, None)
    {
      workout := w;
      dist := None;
      speed := None;
    }

    method GetDistance() returns (d: real)
      modifies this
      ensures d == Distance(workout)
      ensures Cached() == CacheAfterDistance(workout, old(Cached()))
    {
      d := Distance(workout);
      if !workout.Swimming? {
        dist := Some(d);
      }
    }

    method GetMeanSpeed() returns (r: Result<real>)
      modifies this
      ensures r == MeanSpeed(workout)
      ensures Cached() == CacheAfterSpeed(workout, old(Cached()))
    {
      if workout.Swimming? {
        r := MeanSpeed(workout);
      } else {
        var d := GetDistance();
        if workout.duration == 0.0 {
          r := Err(DivisionByZero);
        } else {
          speed := Some(d / workout.duration);
          r := Ok(d / workout.duration);
        }
      }
    }

    method GetSpentCalories() returns (r: Result<real>)
      modifies this
      ensures r == Calories(workout)
      ensures Cached() == if workout.Running? || workout.SportsWalking?
                          then CacheAfterSpeed(workout, old(Cached()))
                          else old(Cached())
    {
      match workout
      case Training(_, _, _) =>
        r := Err(NotImplemented(ClassName(workout)));
      case Running(_, duration, weight) =>
        var s := GetMeanSpeed();
        if s.Err? {
          r := Err(s.error);
        } else {
          r := Ok(RunningCalories(s.value, duration, weight));
        }
      case SportsWalking(_, duration, weight, height) =>
        var s := GetMeanSpeed();
        if s.Err? {
          r := Err(s.error);
        } else if height / CM_IN_M == 0.0 {
          r := Err(DivisionByZero);
        } else {
          r := Ok(WalkingCalories(s.value, duration, weight, height));
        }
      case Swimming(_, duration, weight, lengthPool, countPool) =>
        if duration == 0.0 {
          r := Err(DivisionByZero);
        } else {
          r := Ok(SwimmingCalories(lengthPool, countPool, duration, weight));
        }
    }

    /** The summary; whatever it returns, the attributes end as one speed call
        leaves them, so a failing base object has still cached its distance
        (and its speed, for a non-zero duration). */
    method ShowTrainingInfo() returns (r: Result<InfoMessage>)
      modifies this
      ensures r == Info(workout)
      ensures Cached() == CacheAfterSpeed(workout, old(Cached()))
    {
      var d := GetDistance();
      var s := GetMeanSpeed();
      if s.Err? {
        r := Err(s.error);
        return;
      }
      var c := GetSpentCalories();
      if c.Err? {
        r := Err(c.error);
        return;
      }
      r := Ok(InfoMessage(ClassName(workout), workout.duration, d, s.value, c.value));
    }
  }

  /** Asking an object for its summary twice gives the same record both times
      and leaves the attributes as one call does. */
  method ShowTwice(t: TrainingObject) returns (first: Result<InfoMessage>, second: Result<InfoMessage>)
    modifies t
    ensures first == second == Info(t.workout)
    ensures t.Cached() == CacheAfterSpeed(t.workout, old(t.Cached()))
  {
    first := t.ShowTrainingInfo();
    second := t.ShowTrainingInfo();
    CacheAfterSpeedIdempotent(t.workout, old(t.Cached()));
  }

  /** A second speed call leaves the attributes as the first left them. */
  lemma CacheAfterSpeedIdempotent(w: Workout, c: Cache)
    ensures CacheAfterSpeed(w, CacheAfterSpeed(w, c)) == CacheAfterSpeed(w, c)
  {
  }

  /** After a successful summary of a class with the inherited formulas, the
      attributes hold exactly the distance and speed the summary reports. */
  lemma CacheMatchesSummary(w: Workout, c: Cache)
    requires Info(w).Ok? && !w.Swimming?
    ensures CacheAfterSpeed(w, c) == Cache(Some(Info(w).value.distance), Some(Info(w).value.speed))
  {
  }
}
