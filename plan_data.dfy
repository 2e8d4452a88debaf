/** The plan the generative model returns: five workout days, five diet
    days, coaching tips and a motivation quote. The three top-level lists the
    code tests for (`plan.workout_plan`, `plan.diet_plan`, `plan.ai_tips`) are
    optional, because a decoded reply is not checked against the schema. */
module PlanData {
  import opened JsText
  import opened JsValues

  datatype Exercise = Exercise(name: string, sets: string, reps: string, restTime: string)

  datatype WorkoutDay = WorkoutDay(day: string, exercises: seq<Exercise>)

  datatype Meal = Meal(mealType: string, item: string)

  datatype DietDay = DietDay(day: string, meals: seq<Meal>)

  datatype Plan = Plan(
    workoutPlan: Option<seq<WorkoutDay>>,
    dietPlan: Option<seq<DietDay>>,
    aiTips: Option<seq<string>>,
    motivationQuote: Value)
}
