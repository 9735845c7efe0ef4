/** The three sample packages of the program's driver, worked through the
    factory and the summary with exact arithmetic. */
module Samples {
  import opened Errors
  import opened Trainings
  import opened Summary
  import opened Factory

  lemma SwimmingSample()
    ensures ReadPackage("SWM", [720.0, 1.0, 80.0, 25.0, 40.0]) == Ok(Swimming(720.0, 1.0, 80.0, 25.0, 40.0))
    ensures Info(Swimming(720.0, 1.0, 80.0, 25.0, 40.0))
         == Ok(InfoMessage("Swimming", 1.0, 0.9936, 1.0, 336.0))
  {
  }

  lemma RunningSample()
    ensures ReadPackage("RUN", [15000.0, 1.0, 75.0]) == Ok(Running(15000.0, 1.0, 75.0))
    ensures Info(Running(15000.0, 1.0, 75.0))
         == Ok(InfoMessage("Running", 1.0, 9.75, 9.75, 797.805))
  {
  }

  lemma WalkingSample()
    ensures ReadPackage("WLK", [9000.0, 1.0, 75.0, 180.0]) == Ok(SportsWalking(9000.0, 1.0, 75.0, 180.0))
    ensures Info(SportsWalking(9000.0, 1.0, 75.0, 180.0))
         == Ok(InfoMessage("SportsWalking", 1.0, 5.85, 5.85, 349.251747525))
  {
  }

  /** Tags outside the table fail before any list is looked at, and a known
      tag with a list of the wrong length fails on the arity. */
  lemma FactoryErrorSamples()
    ensures ReadPackage("SWIM", [720.0, 1.0, 80.0, 25.0, 40.0]) == Err(UnknownWorkoutType)
    ensures ReadPackage("", []) == Err(UnknownWorkoutType)
    ensures ReadPackage("RUN", [9000.0, 1.0, 75.0, 180.0]) == Err(ArityMismatch)
    ensures ReadPackage("WLK", [15000.0, 1.0, 75.0]) == Err(ArityMismatch)
    ensures ReadPackage("SWM", []) == Err(ArityMismatch)
  {
  }
}
