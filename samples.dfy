/**
 * The three sample packages of the homework.py driver, read and summarised
 * end to end. Over exact reals each summary comes out as stated.
 */
module Samples {
  import opened Training
  import opened Packages

  /** SWM [720, 1, 80, 25, 40]: 25 m x 40 lengths in one hour is 1 km/h,
      and (1 + 1.1) * 2 * 80 * 1 = 336 kcal. */
  lemma SwimmingSample()
    ensures ReadPackage("SWM", [720.0, 1.0, 80.0, 25.0, 40.0]) == Ok(Swimming(720.0, 1.0, 80.0, 25.0, 40.0))
    ensures ShowTrainingInfo(Swimming(720.0, 1.0, 80.0, 25.0, 40.0))
            == InfoMessage("Swimming", 1.0, 0.9936, 1.0, 336.0)
  {
  }

  /** RUN [15000, 1, 75]: 9.75 km in one hour, and
      (18 * 9.75 + 1.79) * 75 / 1000 * 60 = 797.805 kcal. */
  lemma RunningSample()
    ensures ReadPackage("RUN", [15000.0, 1.0, 75.0]) == Ok(Running(15000.0, 1.0, 75.0))
    ensures ShowTrainingInfo(Running(15000.0, 1.0, 75.0))
            == InfoMessage("Running", 1.0, 9.75, 9.75, 797.805)
  {
  }

  /** WLK [9000, 1, 75, 180]: 5.85 km in one hour, 1.6263 m/s, and
      (0.035 * 75 + 1.6263^2 / 1.8 * 0.029 * 75) * 60 = 349.251747525 kcal. */
  lemma WalkingSample()
    ensures ReadPackage("WLK", [9000.0, 1.0, 75.0, 180.0]) == Ok(SportsWalking(9000.0, 1.0, 75.0, 180.0))
    ensures ShowTrainingInfo(SportsWalking(9000.0, 1.0, 75.0, 180.0))
            == InfoMessage("SportsWalking", 1.0, 5.85, 5.85, 349.251747525)
  {
  }

  /** An unknown code such as XYZ is refused before the values are looked at. */
  lemma UnknownSample()
    ensures ReadPackage("XYZ", [15000.0, 1.0, 75.0]) == Err(UnknownWorkoutType("XYZ"))
  {
  }

  /** The RUN sample values under the WLK code are one value short. */
  lemma ShortPackageSample()
    ensures ReadPackage("WLK", [15000.0, 1.0, 75.0]) == Err(ArgumentCountMismatch(4, 3))
  {
  }
}
