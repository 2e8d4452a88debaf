/** The enrichment endpoints /api/generate-image, /api/read-plan and
    /api/export-pdf, and the document generatePlanHTML builds for the PDF.
    Each calls one foreign service, passed here as a function parameter. */
module Enrichment {
  import opened JsText
  import opened JsValues
  import opened PlanData

  // ----- /api/generate-image -----

  /** The JSON body: `{ item_name, is_exercise }`. */
  datatype ImageBody = ImageBody(itemName: Value, isExercise: Value)

  const GymLead := "High-quality, realistic photo of a person performing a "
  const GymTail := " in a modern gym. Clear form, no text."
  const FoodLead := "High-quality food photography of a "
  const FoodTail := " meal. Studio lighting, close-up, no text."
  const GymOpening := GymLead + "\""
  const GymClosing := "\"" + GymTail
  const FoodOpening := FoodLead + "\""
  const FoodClosing := "\"" + FoodTail

  /** The gym template for a truthy `is_exercise`, the food template
      otherwise, each with the item name between double quotes. */
  function ImagePrompt(body: ImageBody): (p: string)
    ensures Truthy(body.isExercise) ==> StartsWith(p, GymOpening)
    ensures !Truthy(body.isExercise) ==> StartsWith(p, FoodOpening)
    ensures Includes(p, "\"" + Show(body.itemName) + "\"")
  {
    var name := Show(body.itemName);
    if Truthy(body.isExercise) then
      QuotedBetween(GymLead, name, GymTail);
      assert GymOpening + name + GymClosing == GymLead + "\"" + name + "\"" + GymTail;
      GymOpening + name + GymClosing
    else
      QuotedBetween(FoodLead, name, FoodTail);
      assert FoodOpening + name + FoodClosing == FoodLead + "\"" + name + "\"" + FoodTail;
      FoodOpening + name + FoodClosing
  }

  /** A name placed between an opening that ends with a quote and a closing
      that starts with one appears in quotes. */
  lemma QuotedBetween(lead: string, name: string, tail: string)
    ensures Includes(lead + "\"" + name + "\"" + tail, "\"" + name + "\"")
  {
    var s := lead + "\"" + name + "\"" + tail;
    assert s[|lead|..|lead| + |name| + 2] == "\"" + name + "\"";
    IncludesWhereOccurs(s, "\"" + name + "\"", |lead|);
  }

  /** The prompt gives back both of its inputs: it starts with the gym
      opening exactly when `is_exercise` is truthy (otherwise with the food
      opening), and what lies between the opening and closing quotes is the
      item name. */
  lemma ImagePromptDetermined(body: ImageBody)
    ensures StartsWith(ImagePrompt(body), GymOpening) <==> Truthy(body.isExercise)
    ensures StartsWith(ImagePrompt(body), FoodOpening) <==> !Truthy(body.isExercise)
    ensures var p, name := ImagePrompt(body), Show(body.itemName);
      if Truthy(body.isExercise)
      then p[|GymOpening|..|p| - |GymClosing|] == name
      else p[|FoodOpening|..|p| - |FoodClosing|] == name
  {
    var p, name := ImagePrompt(body), Show(body.itemName);
    assert GymOpening[12] != FoodOpening[12];
    if Truthy(body.isExercise) {
      assert p[..|GymOpening|] == GymOpening;
      assert p[12] == GymOpening[12];
      assert p[|GymOpening|..|p| - |GymClosing|] == name;
    } else {
      assert p[..|FoodOpening|] == FoodOpening;
      assert p[12] == FoodOpening[12];
      assert p[|FoodOpening|..|p| - |FoodClosing|] == name;
    }
  }

  /** The job sent to the image model: one square image for the prompt. */
  datatype ImageJob = ImageJob(model: string, prompt: string, aspectRatio: string, numOutputs: nat)

  /** The image-model call: one square image from the flux-schnell model,
      for the gym or food prompt as `is_exercise` says. */
  function ImageJobFor(body: ImageBody): (job: ImageJob)
    ensures job.model == "black-forest-labs/flux-schnell" && job.aspectRatio == "1:1" && job.numOutputs == 1
    ensures StartsWith(job.prompt, GymOpening) <==> Truthy(body.isExercise)
    ensures Includes(job.prompt, "\"" + Show(body.itemName) + "\"")
  {
    ImagePromptDetermined(body);
    ImageJob("black-forest-labs/flux-schnell", ImagePrompt(body), "1:1", 1)
  }

  datatype ImageReply = ImageOk(imageUrl: Value) | ImageFailed(status: int, error: string)

  const ImageError := "Failed to generate image. Check Replicate API token."

  /** One request to /api/generate-image. `replicate` returns the model's
      output list (None when the output is null or undefined) or throws. */
  method GenerateImage(body: ImageBody, replicate: ImageJob -> Outcome<Option<seq<Value>>>)
    returns (reply: ImageReply)
    ensures var outcome := replicate(ImageJobFor(body));
      reply.ImageOk? <==>
        outcome.Returned? && outcome.value.Some? && |outcome.value.value| > 0 && Truthy(outcome.value.value[0])
    ensures reply.ImageOk? ==> reply.imageUrl == replicate(ImageJobFor(body)).value.value[0]
    ensures reply.ImageFailed? ==> reply == ImageFailed(500, ImageError)
  {
    var prompt := ImagePrompt(body);
    var outcome := replicate(ImageJob("black-forest-labs/flux-schnell", prompt, "1:1", 1));
    if outcome.Threw? {
      reply := ImageFailed(500, ImageError);
      return;
    }
    var output := outcome.value;
    var imageUrl := if output.Some? && |output.value| > 0 then output.value[0] else Null;
    if !Truthy(imageUrl) {
      // "No image URL received." is thrown and caught by the handler
      reply := ImageFailed(500, ImageError);
      return;
    }
    reply := ImageOk(imageUrl);
  }

  // ----- /api/read-plan -----

  /** The JSON body: `{ text_to_speak, voice_id }`. */
  datatype SpeechBody = SpeechBody(textToSpeak: Value, voiceId: Value)

  /** The request sent to the speech service. */
  datatype SpeechJob = SpeechJob(voice: Value, text: Value, modelId: string)

  const DefaultVoice := "21m00Tcm4TlvDq8ikWAM"
  const SpeechModel := "eleven_turbo_v2_5"
  const MissingTextError := "Text to speak is required."
  const SpeechError := "Failed to convert text to speech. Check ElevenLabs API key."
  const AudioHeaders: seq<(string, string)> := [("Content-Type", "audio/mpeg"), ("Transfer-Encoding", "chunked")]

  datatype SpeechContent = AudioStream(job: SpeechJob) | ErrorJson(error: string)

  /** The reply, with the headers the handler set on it. */
  datatype SpeechReply = SpeechReply(status: int, headers: seq<(string, string)>, content: SpeechContent)

  /** One request to /api/read-plan. `elevenlabs` returns once the audio
      stream is open, or throws; the stream's bytes are piped unchanged. */
  method ReadPlan(body: SpeechBody, elevenlabs: SpeechJob -> Outcome<()>) returns (reply: SpeechReply)
    ensures !Truthy(body.textToSpeak) <==> reply == SpeechReply(400, [], ErrorJson(MissingTextError))
    ensures var job := SpeechJob(if body.voiceId == Undefined then Str(DefaultVoice) else body.voiceId,
                                 body.textToSpeak, SpeechModel);
      Truthy(body.textToSpeak) ==>
        reply == if elevenlabs(job).Returned? then SpeechReply(200, AudioHeaders, AudioStream(job))
                 else SpeechReply(500, AudioHeaders, ErrorJson(SpeechError))
  {
    // the destructuring default applies only when voice_id is undefined
    var voiceId := if body.voiceId == Undefined then Str(DefaultVoice) else body.voiceId;
    if !Truthy(body.textToSpeak) {
      reply := SpeechReply(400, [], ErrorJson(MissingTextError));
      return;
    }
    var headers := [("Content-Type", "audio/mpeg")];
    headers := headers + [("Transfer-Encoding", "chunked")];
    var job := SpeechJob(voiceId, body.textToSpeak, SpeechModel);
    var outcome := elevenlabs(job);
    if outcome.Threw? {
      // nothing has been piped yet, so the headers are not sent
      reply := SpeechReply(500, headers, ErrorJson(SpeechError));
      return;
    }
    reply := SpeechReply(200, headers, AudioStream(job));
  }

  // ----- /api/export-pdf -----

  /** A day block: its heading and one list item per entry. */
  datatype DayCard = DayCard(heading: string, items: seq<string>)

  /** The structure of generatePlanHTML's page: the quote, the workout and
      diet day blocks, and the tips list. */
  datatype PlanDocument = PlanDocument(motivation: string, workoutCards: seq<DayCard>, dietCards: seq<DayCard>, tips: seq<string>)

  function ExerciseItem(e: Exercise): string {
    "<strong>" + e.name + ":</strong> " + e.sets + " sets of " + e.reps + " (" + e.restTime + " rest)"
  }

  function MealItem(m: Meal): string {
    "<strong>" + m.mealType + ":</strong> " + m.item
  }

  function WorkoutCard(d: WorkoutDay): DayCard {
    DayCard(d.day, MapSeq(d.exercises, ExerciseItem))
  }

  function DietCard(d: DietDay): DayCard {
    DayCard(d.day, MapSeq(d.meals, MealItem))
  }

  /** generatePlanHTML. None when one of the three lists it maps over is
      missing (the template throws a TypeError); otherwise one day block per
      workout and diet day and one list item per exercise, meal and tip, all
      in input order. */
  function PlanHtml(plan: Plan): (r: Option<PlanDocument>)
    ensures r.Some? <==> plan.workoutPlan.Some? && plan.dietPlan.Some? && plan.aiTips.Some?
    ensures r.Some? ==> r.value.motivation == Show(plan.motivationQuote) && r.value.tips == plan.aiTips.value
    ensures r.Some? ==>
      var days, cards := plan.workoutPlan.value, r.value.workoutCards;
      && |cards| == |days|
      && forall i :: 0 <= i < |days| ==>
           && cards[i].heading == days[i].day
           && |cards[i].items| == |days[i].exercises|
           && forall j :: 0 <= j < |days[i].exercises| ==> cards[i].items[j] == ExerciseItem(days[i].exercises[j])
    ensures r.Some? ==>
      var days, cards := plan.dietPlan.value, r.value.dietCards;
      && |cards| == |days|
      && forall i :: 0 <= i < |days| ==>
           && cards[i].heading == days[i].day
           && |cards[i].items| == |days[i].meals|
           && forall j :: 0 <= j < |days[i].meals| ==> cards[i].items[j] == MealItem(days[i].meals[j])
  {
    if plan.workoutPlan.None? || plan.dietPlan.None? || plan.aiTips.None? then None
    else Some(PlanDocument(
      Show(plan.motivationQuote),
      MapSeq(plan.workoutPlan.value, WorkoutCard),
      MapSeq(plan.dietPlan.value, DietCard),
      MapSeq(plan.aiTips.value, (tip: string) => tip)))
  }

  /** What is handed to the HTML-to-PDF engine. */
  datatype PdfJob = PdfJob(content: PlanDocument, format: string, printBackground: bool)

  datatype PdfReply = PdfSent(headers: seq<(string, string)>, pdf: seq<bv8>) | PdfFailed(status: int, error: string)

  const MissingPlanError := "Plan data is missing or incomplete."
  const PdfError := "Failed to generate and export PDF."
  const AttachmentDisposition := "attachment; filename=\"AI_Fitness_Plan.pdf\""

  /** One request to /api/export-pdf; body None is a missing body.
      `rendered` is the job handed to the PDF engine, None when it is never
      called. */
  method ExportPdf(body: Option<Plan>, generatePdf: PdfJob -> Outcome<seq<bv8>>)
    returns (reply: PdfReply, rendered: Option<PdfJob>)
    ensures (body.None? || body.value.workoutPlan.None?) <==> reply == PdfFailed(400, MissingPlanError)
    ensures reply == PdfFailed(400, MissingPlanError) ==> rendered == None
    ensures rendered.Some? <==> body.Some? && PlanHtml(body.value).Some?
    ensures rendered.Some? ==> rendered.value == PdfJob(PlanHtml(body.value).value, "A4", true)
    ensures reply.PdfSent? <==> rendered.Some? && generatePdf(rendered.value).Returned?
    ensures reply.PdfSent? ==>
      && reply.pdf == generatePdf(rendered.value).value
      && reply.headers == [("Content-Type", "application/pdf"),
                           ("Content-Length", IntToString(|reply.pdf|)),
                           ("Content-Disposition", AttachmentDisposition)]
    ensures reply.PdfFailed? && reply != PdfFailed(400, MissingPlanError) ==> reply == PdfFailed(500, PdfError)
  {
    rendered := None;
    if body.None? || body.value.workoutPlan.None? {
      reply := PdfFailed(400, MissingPlanError);
      return;
    }
    var content := PlanHtml(body.value);
    if content.None? {
      reply := PdfFailed(500, PdfError);
      return;
    }
    var job := PdfJob(content.value, "A4", true);
    rendered := Some(job);
    var pdfBuffer := generatePdf(job);
    if pdfBuffer.Threw? {
      reply := PdfFailed(500, PdfError);
      return;
    }
    reply := PdfSent([("Content-Type", "application/pdf"),
                      ("Content-Length", IntToString(|pdfBuffer.value|)),
                      ("Content-Disposition", AttachmentDisposition)],
                     pdfBuffer.value);
  }
}
