/** The factory: a table from a workout tag to a class, and the call of that
    class's constructor with the reading list spread into its positional
    parameters. */
module Factory {
  import opened Errors
  import opened Trainings
  import Instances

  /** The classes the table can name. */
  datatype Kind = SwimmingKind | RunningKind | SportsWalkingKind

  /** The tag table. */
  const PACKAGE: map<string, Kind> :=
    map["SWM" := SwimmingKind, "RUN" := RunningKind, "WLK" := SportsWalkingKind]

  /** The number of positional parameters of the class's constructor. */
  function Arity(k: Kind): (n: nat)
    ensures 3 <= n <= 5
    ensures k.RunningKind? <==> n == 3
    ensures k.SportsWalkingKind? <==> n == 4
    ensures k.SwimmingKind? <==> n == 5
  {
    match k
    case SwimmingKind => 5
    case RunningKind => 3
    case SportsWalkingKind => 4
  }

  /** The class of a concrete object, if the table can name it; the bare base
      class is not in the table. */
  function KindOf(w: Workout): (k: Option<Kind>)
    ensures k.None? <==> w.Training?
  {
    match w
    case Training(_, _, _) => None
    case Running(_, _, _) => Some(RunningKind)
    case SportsWalking(_, _, _, _) => Some(SportsWalkingKind)
    case Swimming(_, _, _, _, _) => Some(SwimmingKind)
  }

  /** The readings of an object in the order of its constructor's parameters. */
  function Readings(w: Workout): (data: seq<real>)
    ensures KindOf(w).Some? ==> |data| == Arity(KindOf(w).value)
    ensures |data| >= 3 && data[0] == w.action && data[1] == w.duration && data[2] == w.weight
  {
    match w
    case Training(action, duration, weight) => [action, duration, weight]
    case Running(action, duration, weight) => [action, duration, weight]
    case SportsWalking(action, duration, weight, height) => [action, duration, weight, height]
    case Swimming(action, duration, weight, lengthPool, countPool) =>
      [action, duration, weight, lengthPool, countPool]
  }

  /** Calling the constructor of class `k` with the list spread into its
      parameters: a list of any other length raises and builds nothing. */
  function Construct(k: Kind, data: seq<real>): (r: Result<Workout>)
    ensures r.Ok? <==> |data| == Arity(k)
    ensures r.Err? ==> r.error == ArityMismatch
    ensures r.Ok? ==> KindOf(r.value) == Some(k) && Readings(r.value) == data
  {
    if |data| != Arity(k) then Err(ArityMismatch)
    else
      match k
      case SwimmingKind => Ok(Swimming(data[0], data[1], data[2], data[3], data[4]))
      case RunningKind => Ok(Running(data[0], data[1], data[2]))
      case SportsWalkingKind => Ok(SportsWalking(data[0], data[1], data[2], data[3]))
  }

  /** Reads one sensor package.  An unknown tag fails at the table lookup,
      whatever the list; a known tag builds its class or fails on the arity. */
  function ReadPackage(tag: string, data: seq<real>): (r: Result<Workout>)
    ensures tag !in PACKAGE ==> r == Err(UnknownWorkoutType)
    ensures r.Ok? <==> tag in PACKAGE && |data| == Arity(PACKAGE[tag])
    ensures tag in PACKAGE && r.Err? ==> r.error == ArityMismatch
    ensures r.Ok? ==> KindOf(r.value) == Some(PACKAGE[tag]) && Readings(r.value) == data
  {
    if tag !in PACKAGE then Err(UnknownWorkoutType)
    else Construct(PACKAGE[tag], data)
  }

  /** The tag the table gives to the class of a concrete object. */
  function TagOf(w: Workout): (tag: string)
    requires !w.Training?
    ensures tag in PACKAGE && Some(PACKAGE[tag]) == KindOf(w)
  {
    match w
    case Running(_, _, _) => "RUN"
    case SportsWalking(_, _, _, _) => "WLK"
    case Swimming(_, _, _, _, _) => "SWM"
  }

  /** Each tag names the class the program's table names. */
  lemma PackageTable()
    ensures PACKAGE.Keys == {"SWM", "RUN", "WLK"}
    ensures ClassName(ReadPackage("SWM", [0.0, 1.0, 0.0, 0.0, 0.0]).value) == "Swimming"
    ensures ClassName(ReadPackage("RUN", [0.0, 1.0, 0.0]).value) == "Running"
    ensures ClassName(ReadPackage("WLK", [0.0, 1.0, 0.0, 0.0]).value) == "SportsWalking"
  {
  }

  /** Reading back an object's own tag and readings rebuilds that object. */
  lemma ReadPackageRoundTrip(w: Workout)
    requires !w.Training?
    ensures ReadPackage(TagOf(w), Readings(w)) == Ok(w)
  {
  }

  /** A successful read determines the tag and the list it came from. */
  lemma ReadPackageInverse(tag: string, data: seq<real>)
    requires ReadPackage(tag, data).Ok?
    ensures !ReadPackage(tag, data).value.Training?
    ensures TagOf(ReadPackage(tag, data).value) == tag
    ensures Readings(ReadPackage(tag, data).value) == data
  {
  }

  /** The factory as the program calls it: it returns a new object with
      nothing cached, or fails and builds none. */
  method Build(tag: string, data: seq<real>) returns (r: Result<Instances.TrainingObject>)
    ensures r.Err? <==> ReadPackage(tag, data).Err?
    ensures r.Err? ==> r.error == ReadPackage(tag, data).error
    ensures r.Ok? ==> && fresh(r.value)
                      && r.value.workout == ReadPackage(tag, data).value
                      && r.value.Cached() == Instances.Cache(None, None)
  {
    var w := ReadPackage(tag, data);
    if w.Err? {
      r := Err(w.error);
    } else {
      var t := new Instances.TrainingObject(w.value);
      r := Ok(t);
    }
  }
}
