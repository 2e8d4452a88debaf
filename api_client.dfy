/** The client's calls to the server (src/api/api.js): the body
    generateImage posts, and the file name exportPlanAsPdf picks from the
    Content-Disposition header of the PDF reply. */
module ApiClient {
  import opened JsText
  import opened JsValues
  import opened Enrichment

  // ----- generateImage -----

  /** The body generateImage posts. Its second parameter defaults to true,
      and a JavaScript default applies only to an argument that is undefined. */
  function ImageRequest(itemName: Value, isExercise: Value): (body: ImageBody)
    ensures body.itemName == itemName
    ensures isExercise == Undefined ==> body.isExercise == Bool(true)
    ensures isExercise != Undefined ==> body.isExercise == isExercise
  {
    ImageBody(itemName, if isExercise == Undefined then Bool(true) else isExercise)
  }

  /** Leaving out the second argument posts the same body as passing true,
      so the server cannot tell the two calls apart; any other flag reaches
      the server with its truthiness unchanged. */
  lemma OmittedFlagSameAsTrue(itemName: Value, isExercise: Value)
    ensures ImageRequest(itemName, Undefined) == ImageRequest(itemName, Bool(true))
    ensures ImageJobFor(ImageRequest(itemName, Undefined)) == ImageJobFor(ImageRequest(itemName, Bool(true)))
    ensures Truthy(ImageRequest(itemName, isExercise).isExercise) <==> isExercise == Undefined || Truthy(isExercise)
  {
  }

  /** An item requested without the second argument is drawn in the gym. */
  lemma DefaultRequestPicksGym(itemName: Value)
    ensures StartsWith(ImagePrompt(ImageRequest(itemName, Undefined)), GymOpening)
  {
    ImagePromptDetermined(ImageRequest(itemName, Undefined));
  }

  // ----- exportPlanAsPdf: the file name -----

  const DefaultFilename := "AI_Fitness_Plan.pdf"
  const FilenameKey := "filename="

  /** The longest prefix of s without a double quote: what `[^"]*` matches
      at the start of s. */
  function LeadingNonQuote(s: string): (r: string)
    ensures r <= s
    ensures forall i :: 0 <= i < |r| ==> r[i] != '"'
    ensures |r| < |s| ==> s[|r|] == '"'
  {
    if s == [] || s[0] == '"' then [] else [s[0]] + LeadingNonQuote(s[1..])
  }

  /** Group 1 of `/filename="?([^"]*)"?/.exec(d)`. Every part after the
      literal `filename=` may match nothing, so the leftmost match starts at
      the first `filename=`; the greedy `"?` takes a quote that follows it,
      and the group is the run of non-quote characters after that. None is
      a failed match. */
  function FilenameCapture(d: string): (r: Option<string>)
    ensures r.None? <==> !Includes(d, FilenameKey)
    ensures r.Some? ==> forall i :: 0 <= i < |r.value| ==> r.value[i] != '"'
    ensures r.Some? ==>
      var rest := d[IndexOf(d, FilenameKey) + |FilenameKey|..];
      var unquoted := if rest != [] && rest[0] == '"' then rest[1..] else rest;
      && r.value <= unquoted
      && (|r.value| < |unquoted| ==> unquoted[|r.value|] == '"')
  {
    var k := IndexOf(d, FilenameKey);
    if k == -1 then None
    else
      var rest := d[k + |FilenameKey|..];
      Some(LeadingNonQuote(if rest != [] && rest[0] == '"' then rest[1..] else rest))
  }

  /** The file name exportPlanAsPdf gives the download: the default unless
      the header is present, mentions "attachment" and yields a non-empty
      capture. */
  method SuggestedFilename(disposition: Option<string>) returns (filename: string)
    ensures disposition.None? ==> filename == DefaultFilename
    ensures disposition.Some? && !Includes(disposition.value, "attachment") ==> filename == DefaultFilename
    ensures forall i :: 0 <= i < |filename| ==> filename[i] != '"'
    ensures filename != DefaultFilename ==>
      && disposition.Some?
      && Includes(disposition.value, "attachment")
      && FilenameCapture(disposition.value) == Some(filename)
      && filename != ""
    ensures disposition.Some? && Includes(disposition.value, "attachment") &&
            FilenameCapture(disposition.value).Some? && FilenameCapture(disposition.value).value != "" ==>
              Some(filename) == FilenameCapture(disposition.value)
  {
    filename := DefaultFilename;
    if disposition.Some? && disposition.value != "" && IndexOf(disposition.value, "attachment") != -1 {
      var matches := FilenameCapture(disposition.value);
      if matches.Some? && matches.value != "" {
        filename := matches.value;
      }
    }
  }

  /** An attachment header naming a file the way the server writes it. */
  function QuotedDisposition(name: string): string {
    "attachment; " + FilenameKey + "\"" + name + "\""
  }

  /** The header prefix before `filename=` holds no 'f', so `filename=`
      first occurs right after it. */
  lemma FilenameKeyAfterAttachment(d: string)
    requires |d| >= 12 + |FilenameKey| && d[..12] == "attachment; " && d[12..12 + |FilenameKey|] == FilenameKey
    ensures IndexOf(d, FilenameKey) == 12
  {
    assert OccursAt(d, FilenameKey, 12);
    forall j | 0 <= j < 12
      ensures !OccursAt(d, FilenameKey, j)
    {
      assert d[j] == "attachment; "[j] != 'f';
    }
  }

  /** Round trip: a quote-free name written into an attachment header is the
      name read back from it. */
  lemma {:induction false} QuotedDispositionRoundTrip(name: string)
    requires forall i :: 0 <= i < |name| ==> name[i] != '"'
    ensures FilenameCapture(QuotedDisposition(name)) == Some(name)
  {
    var d := QuotedDisposition(name);
    FilenameKeyAfterAttachment(d);
    var rest := d[12 + |FilenameKey|..];
    assert rest == "\"" + name + "\"";
    NonQuoteRunEndsAtQuote(name, "\"");
    assert rest[1..] == name + "\"";
  }

  /** `[^"]*` stops at the first quote of s, so it takes all of a quote-free
      prefix that a quote follows. */
  lemma {:induction false} NonQuoteRunEndsAtQuote(name: string, tail: string)
    requires forall i :: 0 <= i < |name| ==> name[i] != '"'
    requires tail != [] && tail[0] == '"'
    ensures LeadingNonQuote(name + tail) == name
    decreases |name|
  {
    if name != [] {
      assert (name + tail)[1..] == name[1..] + tail;
      NonQuoteRunEndsAtQuote(name[1..], tail);
    } else {
      assert name + tail == tail;
    }
  }

  /** The header the PDF endpoint sends names the default file. */
  lemma ServerHeaderFilename()
    ensures Includes(AttachmentDisposition, "attachment")
    ensures FilenameCapture(AttachmentDisposition) == Some(DefaultFilename)
  {
    assert AttachmentDisposition == QuotedDisposition(DefaultFilename);
    assert OccursAt(AttachmentDisposition, "attachment", 0);
    IncludesWhereOccurs(AttachmentDisposition, "attachment", 0);
    QuotedDispositionRoundTrip(DefaultFilename);
  }
}
