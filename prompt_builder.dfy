/** createPlanPrompt: the instruction text sent to the generative model,
    built from the request body by interpolation. */
module PromptBuilder {
  import opened JsText
  import opened JsValues

  /** The request-body fields the prompt reads; a missing field is undefined. */
  datatype Profile = Profile(
    goal: Value, level: Value, location: Value, diet: Value, age: Value,
    gender: Value, height: Value, weight: Value, medicalHistory: Value, stressLevel: Value)

  const Preamble := "You are an expert fitness coach and nutritionist. Generate a personalized, structured 5-day workout plan and a corresponding 5-day diet plan based on the user's details.\n        User Details: "

  const Closing := ".\n        Constraint: The entire response MUST be a single, valid JSON object that strictly adheres to the schema.\n    "

  function Field(name: string, text: string): string {
    name + ": " + text
  }

  /** The "User Details" entries in prompt order. Goal, level, location,
      diet and age are interpolated as they are; the optional fields fall
      back to a placeholder when falsy. */
  function Details(p: Profile): seq<string> {
    [ Field("Goal", Show(p.goal)),
      Field("Level", Show(p.level)),
      Field("Location", Show(p.location)),
      Field("Diet", Show(p.diet)),
      Field("Age", Show(p.age)),
      Field("Gender", ShowOr(p.gender, "N/A")),
      Field("Height", ShowOr(p.height, "N/A") + "cm"),
      Field("Weight", ShowOr(p.weight, "N/A") + "kg"),
      Field("Medical History", ShowOr(p.medicalHistory, "None")),
      Field("Stress Level", ShowOr(p.stressLevel, "N/A")) ]
  }

  /** The prompt text: the details are separated by ", " as in the template. */
  function PlanPrompt(p: Profile): (r: string)
    ensures StartsWith(r, Preamble)
    ensures |r| >= |Preamble| + |Closing| && r[|r| - |Closing|..] == Closing
  {
    Preamble + Join(Details(p), ", ") + Closing
  }

  lemma PromptStatesDetail(p: Profile, i: nat)
    requires i < |Details(p)|
    ensures Includes(PlanPrompt(p), Details(p)[i])
  {
    JoinIncludesEach(Details(p), ", ", i);
    IncludesInLonger(Preamble, Join(Details(p), ", "), Closing, Details(p)[i]);
  }

  /** The entries for the fields interpolated as they are. */
  lemma VerbatimDetails(p: Profile)
    ensures Details(p)[0] == "Goal: " + Show(p.goal)
    ensures Details(p)[1] == "Level: " + Show(p.level)
    ensures Details(p)[2] == "Location: " + Show(p.location)
    ensures Details(p)[3] == "Diet: " + Show(p.diet)
    ensures Details(p)[4] == "Age: " + Show(p.age)
  {
  }

  /** The entries for the fields with a fallback. */
  lemma FallbackDetails(p: Profile)
    ensures Details(p)[5] == "Gender: " + ShowOr(p.gender, "N/A")
    ensures Details(p)[6] == "Height: " + ShowOr(p.height, "N/A") + "cm"
    ensures Details(p)[7] == "Weight: " + ShowOr(p.weight, "N/A") + "kg"
    ensures Details(p)[8] == "Medical History: " + ShowOr(p.medicalHistory, "None")
    ensures Details(p)[9] == "Stress Level: " + ShowOr(p.stressLevel, "N/A")
  {
  }

  /** Goal, level, location, diet and age appear verbatim in the prompt,
      each after its label. */
  lemma PromptEmbedsProfile(p: Profile)
    ensures Includes(PlanPrompt(p), "Goal: " + Show(p.goal))
    ensures Includes(PlanPrompt(p), "Level: " + Show(p.level))
    ensures Includes(PlanPrompt(p), "Location: " + Show(p.location))
    ensures Includes(PlanPrompt(p), "Diet: " + Show(p.diet))
    ensures Includes(PlanPrompt(p), "Age: " + Show(p.age))
  {
    VerbatimDetails(p);
    PromptStatesDetail(p, 0);
    PromptStatesDetail(p, 1);
    PromptStatesDetail(p, 2);
    PromptStatesDetail(p, 3);
    PromptStatesDetail(p, 4);
  }

  /** A falsy gender, height, weight or stress level reads "N/A" and a falsy
      medical history reads "None"; a truthy one appears verbatim. The
      builder never fails, whatever is missing. */
  lemma PromptPlaceholders(p: Profile)
    ensures Includes(PlanPrompt(p), "Gender: " + (if Truthy(p.gender) then Show(p.gender) else "N/A"))
    ensures Includes(PlanPrompt(p), "Height: " + (if Truthy(p.height) then Show(p.height) else "N/A") + "cm")
    ensures Includes(PlanPrompt(p), "Weight: " + (if Truthy(p.weight) then Show(p.weight) else "N/A") + "kg")
    ensures Includes(PlanPrompt(p), "Medical History: " + (if Truthy(p.medicalHistory) then Show(p.medicalHistory) else "None"))
    ensures Includes(PlanPrompt(p), "Stress Level: " + (if Truthy(p.stressLevel) then Show(p.stressLevel) else "N/A"))
  {
    FallbackDetails(p);
    PromptStatesDetail(p, 5);
    PromptStatesDetail(p, 6);
    PromptStatesDetail(p, 7);
    PromptStatesDetail(p, 8);
    PromptStatesDetail(p, 9);
  }
}
