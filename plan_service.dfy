/** The /api/generate-plan handler: build the prompt, call the generative
    model, normalise and decode its text, and map every failure to a 500
    reply with an `error` and a `details` field. */
module PlanService {
  import opened JsText
  import opened JsValues
  import opened PromptBuilder
  import opened FenceParser

  /** The request sent to the generative model. The response schema sent
      with it is always planSchema. */
  datatype ModelRequest = ModelRequest(model: string, contents: string, responseMimeType: string, temperature: real)

  /** The model call: always the same model, a JSON reply and temperature
      0.7; the contents are the prompt built from the body. */
  function PlanRequest(body: Profile): (r: ModelRequest)
    ensures r.model == "gemini-2.5-flash" && r.responseMimeType == "application/json" && r.temperature == 0.7
    ensures StartsWith(r.contents, Preamble)
    ensures Includes(r.contents, "Goal: " + Show(body.goal))
  {
    PromptEmbedsProfile(body);
    ModelRequest("gemini-2.5-flash", PlanPrompt(body), "application/json", 0.7)
  }

  /** The reply: status 200 with the decoded plan, or status 500 with a JSON
      body `{ error, details }` (details absent when the error had no message). */
  datatype PlanReply<J> = PlanOk(plan: J) | PlanFailed(status: int, error: string, details: Option<string>)

  const NotParsableError := "AI output was not parsable JSON. Please try again."
  const NotParsableDetails := "Parsing error on server."
  const GenericError := "Internal Server Error. Check API keys and server logs."
  const AuthError := "Authentication Error: Invalid or missing GEMINI_API_KEY."
  const SchemaError := "Schema Error: Gemini API rejected the request (INVALID_ARGUMENT). Check planSchema."

  /** The user-facing message for a failed model call, found by an ordered
      search of the failure's message: "API key" wins over
      "INVALID_ARGUMENT", and anything else is generic. */
  function FailureMessage(message: Option<string>): (m: string)
    ensures m == AuthError <==> message.Some? && Includes(message.value, "API key")
    ensures m == SchemaError <==>
      message.Some? && !Includes(message.value, "API key") && Includes(message.value, "INVALID_ARGUMENT")
    ensures m == GenericError <==>
      message.None? || (!Includes(message.value, "API key") && !Includes(message.value, "INVALID_ARGUMENT"))
  {
    if message.Some? && Includes(message.value, "API key") then AuthError
    else if message.Some? && Includes(message.value, "INVALID_ARGUMENT") then SchemaError
    else GenericError
  }

  /** One request to /api/generate-plan. `gemini` stands for the model call:
      it returns the reply's text (absent when the reply has none) or throws.
      `decode` stands for JSON.parse: None when it throws. */
  method GeneratePlan<J>(body: Profile, gemini: ModelRequest -> Outcome<Option<string>>, decode: string -> Option<J>)
    returns (reply: PlanReply<J>)
    ensures reply.PlanFailed? ==> reply.status == 500
    ensures match gemini(PlanRequest(body))
      case Threw(message) =>
        reply == PlanFailed(500, FailureMessage(message), message)
      case Returned(None) =>
        reply == PlanFailed(500, NotParsableError, Some(NotParsableDetails))
      case Returned(Some(text)) =>
        reply == if decode(Normalise(text)).Some? then PlanOk(decode(Normalise(text)).value)
                 else PlanFailed(500, NotParsableError, Some(NotParsableDetails))
  {
    var prompt := PlanPrompt(body);
    var outcome := gemini(ModelRequest("gemini-2.5-flash", prompt, "application/json", 0.7));
    match outcome {
      case Threw(message) =>
        var errorMessage := GenericError;
        if message.Some? && Includes(message.value, "API key") {
          errorMessage := AuthError;
        } else if message.Some? && Includes(message.value, "INVALID_ARGUMENT") {
          errorMessage := SchemaError;
        }
        reply := PlanFailed(500, errorMessage, message);
      case Returned(rawText) =>
        if rawText.None? {
          // rawText.trim() throws inside the parsing try block
          reply := PlanFailed(500, NotParsableError, Some(NotParsableDetails));
          return;
        }
        var jsonString := Trim(rawText.value);
        if StartsWith(jsonString, "```json") {
          jsonString := Trim(Substring(jsonString, 7, LastIndexOf(jsonString, "```")));
        } else if StartsWith(jsonString, "```") {
          jsonString := Trim(Substring(jsonString, 3, LastIndexOf(jsonString, "```")));
        }
        var plan := decode(jsonString);
        if plan.None? {
          reply := PlanFailed(500, NotParsableError, Some(NotParsableDetails));
          return;
        }
        reply := PlanOk(plan.value);
    }
  }
}
