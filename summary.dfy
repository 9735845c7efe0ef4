/** The result record and the summary operation of the base class. */
module Summary {
  import opened Errors
  import opened Trainings

  /** The five fields of the summary: class name, hours, km, km/h, kcal. */
  datatype InfoMessage = InfoMessage(
    trainingType: string,
    duration: real,
    distance: real,
    speed: real,
    calories: real)

  /** The summary of one object: the class name, the duration as stored, and
      the class's own distance, speed and calories, asked for in that order,
      so the first of them that raises decides the error. */
  function Info(w: Workout): (r: Result<InfoMessage>)
    ensures r.Ok? <==> Calories(w).Ok?
    ensures r.Ok? ==> && r.value.trainingType == ClassName(w)
                      && r.value.duration == w.duration
                      && r.value.distance == Distance(w)
                      && MeanSpeed(w) == Ok(r.value.speed)
                      && Calories(w) == Ok(r.value.calories)
    ensures r.Err? ==> r.error == if w.duration == 0.0 then DivisionByZero else Calories(w).error
  {
    var distance := Distance(w);
    var speed := MeanSpeed(w);
    if speed.Err? then Err(speed.error)
    else
      var calories := Calories(w);
      if calories.Err? then Err(calories.error)
      else Ok(InfoMessage(ClassName(w), w.duration, distance, speed.value, calories.value))
  }

  /** A bare base object never yields a summary: it fails on its speed when
      the duration is zero, and otherwise on its calories. */
  lemma BaseNeverSummarised(action: real, duration: real, weight: real)
    ensures Info(Training(action, duration, weight)).Err?
    ensures Info(Training(action, duration, weight)).error
         == if duration == 0.0 then DivisionByZero else NotImplemented("Training")
  {
  }

  /** For valid readings of a concrete class, the summary exists, names one of
      the three workout classes, and reports non-negative figures. */
  lemma SummaryOfValidReadings(w: Workout)
    requires ValidReadings(w) && !w.Training?
    ensures Info(w).Ok?
    ensures Info(w).value.trainingType in {"Running", "SportsWalking", "Swimming"}
    ensures Info(w).value.duration > 0.0
    ensures Info(w).value.distance >= 0.0 && Info(w).value.speed >= 0.0
    ensures Info(w).value.calories >= 0.0
  {
  }
}
