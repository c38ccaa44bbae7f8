/** The three sample packages and three failing ones, worked exactly. */
module Samples {
  import opened Wrappers
  import opened Session
  import opened Dispatch

  lemma RunningSample()
    ensures Report("RUN", [15000.0, 1.0, 75.0])
            == Ok(InfoMessage("Running", 1.0, 9.75, 9.75, 797.805))
  {
  }

  /** The swimming distance uses the 1.38 step, and the speed comes from the pool. */
  lemma SwimmingSample()
    ensures Report("SWM", [720.0, 1.0, 80.0, 25.0, 40.0])
            == Ok(InfoMessage("Swimming", 1.0, 0.9936, 1.0, 336.0))
  {
  }

  lemma WalkingSample()
    ensures Report("WLK", [9000.0, 1.0, 75.0, 180.0])
            == Ok(InfoMessage("SportsWalking", 1.0, 5.85, 5.85, 349.251747525))
  {
  }

  lemma UnknownCodeSample()
    ensures Report("ERR", [1.0, 2.0, 3.0, 4.0]) == Err(UnknownWorkoutType("ERR"))
  {
  }

  lemma ShortDataSample()
    ensures Report("RUN", [1.0, 2.0]) == Err(ArityMismatch(3, 2))
  {
  }

  lemma ZeroDurationSample()
    ensures Report("RUN", [15000.0, 0.0, 75.0]) == Err(ZeroDivision)
  {
  }
}
