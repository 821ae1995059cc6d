/** The three sensor packages of the module's demo run, pushed through
    read_package and show_training_info, and an unknown tag. */
module Packages {
  import opened Results
  import opened Homework

  /** ('SWM', [720, 1, 80, 25, 40]): 0.9936 km by strokes, but 1 km/h by the
      pool, hence (1 + 1.1) * 2 * 80 = 336 kcal. */
  lemma SwimmingPackage()
    ensures ReadPackage("SWM", [720.0, 1.0, 80.0, 25.0, 40.0]).Ok?
    ensures ShowTrainingInfo(ReadPackage("SWM", [720.0, 1.0, 80.0, 25.0, 40.0]).value)
      == Ok(InfoMessage("Swimming", 1.0, 0.9936, 1.0, 336.0))
  {
  }

  /** ('RUN', [15000, 1, 75]): 9.75 km at 9.75 km/h, and
      (18 * 9.75 - 20) * 75 / 1000 * 60 = 699.75 kcal. */
  lemma RunningPackage()
    ensures ReadPackage("RUN", [15000.0, 1.0, 75.0]).Ok?
    ensures ShowTrainingInfo(ReadPackage("RUN", [15000.0, 1.0, 75.0]).value)
      == Ok(InfoMessage("Running", 1.0, 9.75, 9.75, 699.75))
  {
  }

  /** ('WLK', [9000, 1, 75, 180]): 5.85 km at 5.85 km/h; 5.85^2 // 180 is 0,
      so only 0.035 * 75 * 60 = 157.5 kcal remain. */
  lemma WalkingPackage()
    ensures ReadPackage("WLK", [9000.0, 1.0, 75.0, 180.0]).Ok?
    ensures ShowTrainingInfo(ReadPackage("WLK", [9000.0, 1.0, 75.0, 180.0]).value)
      == Ok(InfoMessage("SportsWalking", 1.0, 5.85, 5.85, 157.5))
  {
  }

  /** An unknown tag raises ValueError naming it, whatever the data. */
  lemma UnknownTagPackage(data: seq<real>)
    ensures ReadPackage("XYZ", data).Err?
    ensures ReadPackage("XYZ", data).error.ValueError?
    ensures IsInfix("XYZ", ReadPackage("XYZ", data).error.message)
  {
  }

  /** A known tag with too many values raises TypeError with both counts. */
  lemma WrongArityPackage()
    ensures ReadPackage("RUN", [15000.0, 1.0, 75.0, 180.0])
      == Err(TypeError("Running", 3, 4))
  {
  }
}
