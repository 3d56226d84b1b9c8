/** The advisory text of the result: a workout list chosen by goal and two
    fixed lifestyle recommendations. */
module Advice {
  import opened Types

  /** Sleep advice; the same for every input. */
  const SleepRecommendation: string := "7-9 hours per night"

  /** Daily step goal; the same for every input. */
  const WalkingGoal: string := "10,000 steps (approximately 8 kilometers)"

  /** The workout guidance for a goal. Any goal other than muscle gain or weight
      loss, the empty one included, gets the maintenance list. */
  function WorkoutSuggestions(goal: Option<Goal>): (plan: seq<string>)
    ensures |plan| == 4
    ensures forall i :: 0 <= i < |plan| ==> |plan[i]| > 0
  {
    match goal
    case Some(MuscleGain) =>
      [ "Progressive overload strength training 4-5 times per week",
        "Focus on compound exercises (squats, deadlifts, bench press)",
        "Rest 1-2 minutes between sets",
        "Aim for 8-12 reps per set" ]
    case Some(WeightLoss) =>
      [ "High-intensity interval training (HIIT) 3-4 times per week",
        "Strength training 2-3 times per week",
        "Cardio sessions 30-45 minutes",
        "Active recovery days with light walking" ]
    case _ =>
      [ "Mixed cardio and strength training 3-4 times per week",
        "Bodyweight exercises",
        "Flexibility and mobility work",
        "Regular walking or light cardio" ]
  }

  /** Every goal except muscle gain and weight loss gets the maintenance list. */
  lemma WorkoutGoalFallback(goal: Option<Goal>)
    requires goal != Some(MuscleGain) && goal != Some(WeightLoss)
    ensures WorkoutSuggestions(goal) == WorkoutSuggestions(Some(Maintenance))
  {
  }

  /** The three branches give three different lists. */
  lemma WorkoutPlansDistinct()
    ensures WorkoutSuggestions(Some(MuscleGain)) != WorkoutSuggestions(Some(WeightLoss))
    ensures WorkoutSuggestions(Some(MuscleGain)) != WorkoutSuggestions(Some(Maintenance))
    ensures WorkoutSuggestions(Some(WeightLoss)) != WorkoutSuggestions(Some(Maintenance))
  {
  }
}
