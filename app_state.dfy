/** The client's App component: its state (plan, loading flag, error text,
    image modal, form fields) and the handlers that change it. Each handler
    is one step; an awaited server call is a function parameter. */
module AppState {
  import opened JsText
  import opened JsValues
  import opened PlanData
  import opened PromptBuilder
  import opened PlanService
  import opened Enrichment
  import opened ApiClient

  /** The form as the page first shows it. */
  const InitialInput: map<string, Value> := map[
    "name" := Str(""), "age" := Num(30), "gender" := Str("Male"),
    "height" := Num(175), "weight" := Num(70),
    "goal" := Str("Muscle Gain"), "level" := Str("Intermediate"),
    "location" := Str("Gym"), "diet" := Str("Non-Veg"),
    "medicalHistory" := Str(""), "stressLevel" := Str("Low")]

  // ----- the form -----

  /** The `e.target` of a change event on a form control. */
  datatype InputEvent = InputEvent(name: string, value: Value, inputType: string, checked: bool)

  /** The form after a change event: the control's field holds `checked`
      for a checkbox and `value` otherwise, and no other field changes. */
  function WithInput(input: map<string, Value>, e: InputEvent): (r: map<string, Value>)
    ensures r.Keys == input.Keys + {e.name}
    ensures e.inputType == "checkbox" ==> r[e.name] == Bool(e.checked)
    ensures e.inputType != "checkbox" ==> r[e.name] == e.value
    ensures forall k :: k in input && k != e.name ==> r[k] == input[k]
  {
    input[e.name := if e.inputType == "checkbox" then Bool(e.checked) else e.value]
  }

  /** handleGenerate's validation: name, age and weight must be truthy. */
  predicate Filled(input: map<string, Value>): (b: bool)
    ensures b ==> "name" in input && "age" in input && "weight" in input
  {
    Truthy(Get(input, "name")) && Truthy(Get(input, "age")) && Truthy(Get(input, "weight"))
  }

  /** The form as first shown does not pass validation until a name is
      typed, and typing a name is then enough. */
  lemma FormNeedsName(name: string)
    requires name != ""
    ensures !Filled(InitialInput)
    ensures Filled(WithInput(InitialInput, InputEvent("name", Str(name), "text", false)))
  {
    var after := WithInput(InitialInput, InputEvent("name", Str(name), "text", false));
    assert Get(after, "age") == Num(30) && Get(after, "weight") == Num(70);
  }

  /** The body posted to /api/generate-plan: the ten profile fields of the
      form, each under its own name (the name is not sent). */
  function DataToSend(input: map<string, Value>): (p: Profile)
    ensures p.goal == Get(input, "goal") && p.level == Get(input, "level")
    ensures p.location == Get(input, "location") && p.diet == Get(input, "diet")
    ensures p.age == Get(input, "age") && p.gender == Get(input, "gender")
    ensures p.height == Get(input, "height") && p.weight == Get(input, "weight")
    ensures p.medicalHistory == Get(input, "medicalHistory") && p.stressLevel == Get(input, "stressLevel")
  {
    Profile(Get(input, "goal"), Get(input, "level"), Get(input, "location"), Get(input, "diet"),
            Get(input, "age"), Get(input, "gender"), Get(input, "height"), Get(input, "weight"),
            Get(input, "medicalHistory"), Get(input, "stressLevel"))
  }

  /** The name typed into the form never reaches the server. */
  lemma NameNotSent(input: map<string, Value>, name: Value)
    ensures DataToSend(input["name" := name]) == DataToSend(input)
  {
  }

  /** End to end: goal, level, location, diet and age typed into the form
      appear verbatim in the prompt the server builds from the posted body. */
  lemma FormReachesPromptVerbatim(input: map<string, Value>)
    ensures var prompt := PlanPrompt(DataToSend(input));
      && Includes(prompt, "Goal: " + Show(Get(input, "goal")))
      && Includes(prompt, "Level: " + Show(Get(input, "level")))
      && Includes(prompt, "Location: " + Show(Get(input, "location")))
      && Includes(prompt, "Diet: " + Show(Get(input, "diet")))
      && Includes(prompt, "Age: " + Show(Get(input, "age")))
  {
    PromptEmbedsProfile(DataToSend(input));
  }

  /** End to end: the optional form fields reach the prompt, with "N/A"
      (or "None" for the medical history) in place of an empty field. */
  lemma FormReachesPromptFallbacks(input: map<string, Value>)
    ensures var prompt := PlanPrompt(DataToSend(input));
      && Includes(prompt, "Gender: " + ShowOr(Get(input, "gender"), "N/A"))
      && Includes(prompt, "Height: " + ShowOr(Get(input, "height"), "N/A") + "cm")
      && Includes(prompt, "Weight: " + ShowOr(Get(input, "weight"), "N/A") + "kg")
      && Includes(prompt, "Medical History: " + ShowOr(Get(input, "medicalHistory"), "None"))
      && Includes(prompt, "Stress Level: " + ShowOr(Get(input, "stressLevel"), "N/A"))
  {
    PromptPlaceholders(DataToSend(input));
  }

  // ----- plan generation -----

  /** Why an awaited request failed: the server answered with an error
      status (`error` is the body's `error` property, undefined when the
      body has none), the request got no answer, or something else threw. */
  datatype ApiFailure = ResponseError(status: int, error: Value) | RequestError | OtherError

  /** What the awaited generateFitnessPlan call produced: the reply's data
      (None when it is falsy), or a failure. */
  datatype PlanCall = Resolved(data: Option<Plan>) | Rejected(failure: ApiFailure)

  const ValidationError := "Please fill in Name, Age, and Weight."
  // Each of the next two messages is a single literal in the component. It is
  // written here as two literals because the verifier does not look at the
  // characters of a literal this long, and ErrorMessageNamesCase needs the
  // first one.
  const DefaultPlanError := "Could not generate plan. " + "Check backend server and API keys."
  const NoResponseError := "No response from server. " + "Is the Node.js server running on port 4000?"
  const ServerErrorPrefix := "Server Error ("
  const ServerStatusPrefix := "Server responded with status "

  /** A reply is kept as the plan only when it is truthy and has a workout list. */
  predicate Accepted(call: PlanCall): (b: bool)
    ensures b ==> call.Resolved? && call.data.Some?
    ensures b ==> call.data.value.workoutPlan.Some? && SectionNarration(call.data.value, "workout")
                  == Join(MapSeq(call.data.value.workoutPlan.value, WorkoutDayPhrase), ". ")
  {
    call.Resolved? && call.data.Some? && call.data.value.workoutPlan.Some?
  }

  /** What the catch block receives: a rejected reply's failure, or the
      error thrown for a reply without a workout list, which carries neither
      a response nor a request. */
  function Caught(call: PlanCall): ApiFailure {
    if call.Rejected? then call.failure else OtherError
  }

  /** The message shown for a failure: the server's error text when the
      reply has one, then the status alone, then the no-answer message, and
      the default otherwise. */
  function ClientErrorMessage(f: ApiFailure): (m: string)
    ensures f.ResponseError? && Truthy(f.error) ==>
      && OccursAt(m, IntToString(f.status), |ServerErrorPrefix|)
      && |Show(f.error)| <= |m| && m[|m| - |Show(f.error)|..] == Show(f.error)
    ensures f.ResponseError? && !Truthy(f.error) ==> OccursAt(m, IntToString(f.status), |ServerStatusPrefix|)
  {
    match f
    case ResponseError(status, error) =>
      if Truthy(error) then ServerErrorPrefix + IntToString(status) + "): " + Show(error)
      else ServerStatusPrefix + IntToString(status) + ". Check Node.js console."
    case RequestError => NoResponseError
    case OtherError => DefaultPlanError
  }

  /** The message tells which of the four cases happened. */
  lemma ErrorMessageNamesCase(f: ApiFailure)
    ensures StartsWith(ClientErrorMessage(f), ServerErrorPrefix) <==> f.ResponseError? && Truthy(f.error)
    ensures StartsWith(ClientErrorMessage(f), ServerStatusPrefix) <==> f.ResponseError? && !Truthy(f.error)
    ensures ClientErrorMessage(f) == NoResponseError <==> f.RequestError?
    ensures ClientErrorMessage(f) == DefaultPlanError <==> f.OtherError?
  {
    var m := ClientErrorMessage(f);
    assert ServerErrorPrefix[7] == 'E' && ServerStatusPrefix[7] == 'r';
    assert NoResponseError[0] == 'N' && DefaultPlanError[0] == 'C';
    match f
    case ResponseError(status, error) =>
      if Truthy(error) {
        assert m[..|ServerErrorPrefix|] == ServerErrorPrefix;
        assert m[7] == 'E' && m[0] == 'S';
      } else {
        assert m[..|ServerStatusPrefix|] == ServerStatusPrefix;
        assert m[7] == 'r' && m[0] == 'S';
      }
    case RequestError =>
      assert m[0] == 'N';
    case OtherError =>
      assert m[0] == 'C';
  }

  /** A failed plan request shows the server's classified message. */
  lemma ServerFailureShown(message: Option<string>)
    ensures ClientErrorMessage(ResponseError(500, Str(FailureMessage(message))))
            == "Server Error (500): " + FailureMessage(message)
  {
    var m := FailureMessage(message);
    assert Truthy(Str(m)) by {
      assert m == AuthError || m == SchemaError || m == GenericError;
    }
    assert ServerErrorPrefix + IntToString(500) + "): " == "Server Error (500): " by {
      assert NatToString(5) == "5";
      assert NatToString(50) == "50";
      assert IntToString(500) == "500";
    }
  }

  // ----- narration -----

  function ExercisePhrase(e: Exercise): string {
    e.name + " for " + e.sets + " sets of " + e.reps
  }

  function WorkoutDayPhrase(d: WorkoutDay): string {
    d.day + ". The exercises are: " + Join(MapSeq(d.exercises, ExercisePhrase), ". ")
  }

  function MealPhrase(m: Meal): string {
    m.mealType + ", which is " + m.item
  }

  function DietDayPhrase(d: DietDay): string {
    d.day + "'s meals are: " + Join(MapSeq(d.meals, MealPhrase), ". ")
  }

  /** The spoken text of one section, empty for an unknown section or a
      missing list. */
  function SectionNarration(p: Plan, section: string): (r: string)
    ensures r != "" ==> (section == "workout" && p.workoutPlan.Some?) || (section == "diet" && p.dietPlan.Some?)
  {
    if section == "workout" && p.workoutPlan.Some? then Join(MapSeq(p.workoutPlan.value, WorkoutDayPhrase), ". ")
    else if section == "diet" && p.dietPlan.Some? then Join(MapSeq(p.dietPlan.value, DietDayPhrase), ". ")
    else ""
  }

  /** The coach's tip appended after the section: the first tip only. */
  function TipSuffix(p: Plan): (r: string)
    ensures r == "" <==> p.aiTips.None? || |p.aiTips.value| == 0
    ensures r != "" ==> |p.aiTips.value[0]| <= |r| && r[|r| - |p.aiTips.value[0]|..] == p.aiTips.value[0]
  {
    if p.aiTips.Some? && |p.aiTips.value| > 0 then ". Coach's tip: " + p.aiTips.value[0] else ""
  }

  /** The text handleReadPlan speaks: the section first, the tip suffix last. */
  function Narration(p: Plan, section: string): (r: string)
    ensures StartsWith(r, SectionNarration(p, section))
    ensures |TipSuffix(p)| <= |r| && r[|r| - |TipSuffix(p)|..] == TipSuffix(p)
  {
    SectionNarration(p, section) + TipSuffix(p)
  }

  /** An unknown section speaks the tip suffix alone, or nothing. */
  lemma UnknownSectionNarration(p: Plan, section: string)
    requires section != "workout" && section != "diet"
    ensures Narration(p, section) ==
      if p.aiTips.Some? && |p.aiTips.value| > 0 then ". Coach's tip: " + p.aiTips.value[0] else ""
  {
  }

  /** A day's workout phrase names each of its exercises. */
  lemma WorkoutDayMentions(d: WorkoutDay, j: nat)
    requires j < |d.exercises|
    ensures Includes(WorkoutDayPhrase(d), ExercisePhrase(d.exercises[j]))
  {
    var phrases := MapSeq(d.exercises, ExercisePhrase);
    JoinIncludesEach(phrases, ". ", j);
    IncludesInLonger(d.day + ". The exercises are: ", Join(phrases, ". "), "", phrases[j]);
    assert d.day + ". The exercises are: " + Join(phrases, ". ") + "" == WorkoutDayPhrase(d);
  }

  /** A day's diet phrase names each of its meals. */
  lemma DietDayMentions(d: DietDay, j: nat)
    requires j < |d.meals|
    ensures Includes(DietDayPhrase(d), MealPhrase(d.meals[j]))
  {
    var phrases := MapSeq(d.meals, MealPhrase);
    JoinIncludesEach(phrases, ". ", j);
    IncludesInLonger(d.day + "'s meals are: ", Join(phrases, ". "), "", phrases[j]);
    assert d.day + "'s meals are: " + Join(phrases, ". ") + "" == DietDayPhrase(d);
  }

  /** Text found in the section is found in the whole narration. */
  lemma NarrationIncludesSection(p: Plan, section: string, y: string)
    requires Includes(SectionNarration(p, section), y)
    ensures Includes(Narration(p, section), y)
  {
    IncludesInPrefix(SectionNarration(p, section), TipSuffix(p), y);
  }

  /** The workout narration names every exercise of every day. */
  lemma NarrationMentionsExercise(p: Plan, i: nat, j: nat)
    requires p.workoutPlan.Some? && i < |p.workoutPlan.value| && j < |p.workoutPlan.value[i].exercises|
    ensures Includes(Narration(p, "workout"), ExercisePhrase(p.workoutPlan.value[i].exercises[j]))
  {
    var d := p.workoutPlan.value[i];
    var phrase := ExercisePhrase(d.exercises[j]);
    var dayPhrases := MapSeq(p.workoutPlan.value, WorkoutDayPhrase);
    assert Includes(dayPhrases[i], phrase) by {
      WorkoutDayMentions(d, j);
    }
    assert Includes(SectionNarration(p, "workout"), phrase) by {
      JoinIncludesInPart(dayPhrases, ". ", i, phrase);
    }
    NarrationIncludesSection(p, "workout", phrase);
  }

  /** The diet narration names every meal of every day. */
  lemma NarrationMentionsMeal(p: Plan, i: nat, j: nat)
    requires p.dietPlan.Some? && i < |p.dietPlan.value| && j < |p.dietPlan.value[i].meals|
    ensures Includes(Narration(p, "diet"), MealPhrase(p.dietPlan.value[i].meals[j]))
  {
    var d := p.dietPlan.value[i];
    var phrase := MealPhrase(d.meals[j]);
    var dayPhrases := MapSeq(p.dietPlan.value, DietDayPhrase);
    assert Includes(dayPhrases[i], phrase) by {
      DietDayMentions(d, j);
    }
    assert Includes(SectionNarration(p, "diet"), phrase) by {
      JoinIncludesInPart(dayPhrases, ". ", i, phrase);
    }
    NarrationIncludesSection(p, "diet", phrase);
  }

  // ----- the component -----

  /** The image modal: a picture URL and a title (an empty title is closed). */
  datatype ImageModal = ImageModal(url: Value, title: string)

  function ImageErrorTitle(itemName: string): string {
    "Error generating image for " + itemName + ". Check Replicate API key."
  }

  class App {
    var plan: Option<Plan>
    var loading: bool
    var error: Option<string>
    var imageModal: ImageModal
    var userInput: map<string, Value>

    constructor ()
      ensures plan == None && !loading && error == None
      ensures imageModal == ImageModal(Null, "")
      ensures userInput == InitialInput
    {
      plan := None;
      loading := false;
      error := None;
      imageModal := ImageModal(Null, "");
      userInput := InitialInput;
    }

    /** handleInputChange. */
    method HandleInputChange(e: InputEvent)
      modifies this
      ensures userInput == WithInput(old(userInput), e)
      ensures plan == old(plan) && loading == old(loading) && error == old(error) && imageModal == old(imageModal)
    {
      userInput := userInput[e.name := if e.inputType == "checkbox" then Bool(e.checked) else e.value];
    }

    /** handleGenerate. `sent` is the body posted to the server, None when
        validation stops the request. */
    method HandleGenerate(generateFitnessPlan: Profile -> PlanCall) returns (sent: Option<Profile>)
      modifies this
      ensures userInput == old(userInput) && imageModal == old(imageModal)
      ensures !Filled(old(userInput)) ==>
        sent == None && error == Some(ValidationError) && plan == old(plan) && loading == old(loading)
      ensures Filled(old(userInput)) ==>
        var call := generateFitnessPlan(DataToSend(old(userInput)));
        && sent == Some(DataToSend(old(userInput)))
        && !loading
        && plan == (if Accepted(call) then call.data else None)
        && error == (if Accepted(call) then None else Some(ClientErrorMessage(Caught(call))))
    {
      if !Truthy(Get(userInput, "name")) || !Truthy(Get(userInput, "age")) || !Truthy(Get(userInput, "weight")) {
        error := Some(ValidationError);
        sent := None;
        return;
      }
      loading := true;
      error := None;
      plan := None;
      var dataToSend := DataToSend(userInput);
      sent := Some(dataToSend);
      var caught: Option<ApiFailure> := None;
      match generateFitnessPlan(dataToSend) {
        case Resolved(generatedPlan) =>
          if generatedPlan.Some? && generatedPlan.value.workoutPlan.Some? {
            plan := generatedPlan;
          } else {
            // "Invalid plan structure received from AI." is thrown
            caught := Some(OtherError);
          }
        case Rejected(e) =>
          caught := Some(e);
      }
      if caught.Some? {
        var e := caught.value;
        var errMsg := DefaultPlanError;
        if e.ResponseError? {
          if Truthy(e.error) {
            errMsg := ServerErrorPrefix + IntToString(e.status) + "): " + Show(e.error);
          } else {
            errMsg := ServerStatusPrefix + IntToString(e.status) + ". Check Node.js console.";
          }
        } else if e.RequestError? {
          errMsg := NoResponseError;
        }
        error := Some(errMsg);
      }
      loading := false;
    }

    /** handleItemClick. Nothing happens while a plan is loading or a modal
        is open; otherwise the image is requested and the modal shows it, or
        an error title. `requested` is the body posted, None when nothing
        is asked. */
    method HandleItemClick(itemName: string, isExercise: bool, generateImage: ImageBody -> Outcome<Value>)
      returns (requested: Option<ImageBody>)
      modifies this
      ensures plan == old(plan) && loading == old(loading) && error == old(error) && userInput == old(userInput)
      ensures old(loading) || old(imageModal).title != "" ==> imageModal == old(imageModal) && requested == None
      ensures !old(loading) && old(imageModal).title == "" ==>
        var body := ImageRequest(Str(itemName), Bool(isExercise));
        && requested == Some(body)
        && imageModal == match generateImage(body)
             case Returned(url) => ImageModal(url, itemName)
             case Threw(_) => ImageModal(Null, ImageErrorTitle(itemName))
    {
      if loading || imageModal.title != "" {
        requested := None;
        return;
      }
      imageModal := ImageModal(Null, "Generating visual for \"" + itemName + "\"...");
      var body := ImageRequest(Str(itemName), Bool(isExercise));
      requested := Some(body);
      var outcome := generateImage(body);
      if outcome.Threw? {
        imageModal := ImageModal(Null, ImageErrorTitle(itemName));
      } else {
        imageModal := ImageModal(outcome.value, itemName);
      }
    }

    /** A click on the open modal closes it, which lets items be clicked again. */
    method CloseImageModal()
      modifies this
      ensures imageModal == ImageModal(Null, "")
      ensures plan == old(plan) && loading == old(loading) && error == old(error) && userInput == old(userInput)
    {
      imageModal := ImageModal(Null, "");
    }

    /** handleReadPlan: the text handed to readPlanSection, None when there
        is no plan. The state does not change. */
    method HandleReadPlan(section: string) returns (spoken: Option<string>)
      ensures plan.None? ==> spoken.None?
      ensures plan.Some? ==> spoken == Some(Narration(plan.value, section))
    {
      if plan.None? {
        spoken := None;
        return;
      }
      var p := plan.value;
      var text := "";
      if section == "workout" && p.workoutPlan.Some? {
        text := Join(MapSeq(p.workoutPlan.value, WorkoutDayPhrase), ". ");
      } else if section == "diet" && p.dietPlan.Some? {
        text := Join(MapSeq(p.dietPlan.value, DietDayPhrase), ". ");
      }
      assert text == SectionNarration(p, section);
      if p.aiTips.Some? && |p.aiTips.value| > 0 {
        text := text + (". Coach's tip: " + p.aiTips.value[0]);
      } else {
        assert text == text + TipSuffix(p);
      }
      spoken := Some(text);
    }
  }
}
