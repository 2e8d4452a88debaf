/** The normalisation the generate-plan handler applies to the model's text
    before handing it to JSON.parse: trim it; if it begins with a "```json"
    marker, or else with a bare "```" marker, keep what lies between that
    marker and the last "```" (as String.prototype.substring computes it);
    trim again. */
module FenceParser {
  import opened JsText

  const JsonFence := "```json"
  const Fence := "```"

  /** The text the decoder is given for the model's raw text. It is never
      longer than the raw text, and text that does not begin with a fence
      (after trimming) is only trimmed. */
  function Normalise(raw: string): (r: string)
    ensures |r| <= |raw|
    ensures !StartsWith(Trim(raw), Fence) ==> r == Trim(raw)
  {
    var t := Trim(raw);
    assert StartsWith(t, JsonFence) ==> StartsWith(t, Fence) by {
      assert JsonFence[..3] == Fence;
    }
    if StartsWith(t, JsonFence) then Trim(Substring(t, 7, LastIndexOf(t, Fence)))
    else if StartsWith(t, Fence) then Trim(Substring(t, 3, LastIndexOf(t, Fence)))
    else t
  }

  /** Round trip: any text wrapped in a "```json" fence normalises to the
      text itself, trimmed. */
  lemma JsonFenceRoundTrip(s: string)
    ensures Normalise(JsonFence + s + Fence) == Trim(s)
  {
    var t := JsonFence + s + Fence;
    TrimUnchanged(t);
    assert StartsWith(t, JsonFence);
    assert t[|t| - 3..] == Fence;
    LastIndexOfAtEnd(t, Fence);
    assert t[7..7 + |s|] == s;
  }

  /** Round trip for a bare fence: the wrapped text normalises to itself,
      trimmed, unless it begins with "json" (then the "```json" test takes
      precedence, see JsonTagTakesPrecedence). */
  lemma BareFenceRoundTrip(s: string)
    requires !StartsWith(s, "json")
    ensures Normalise(Fence + s + Fence) == Trim(s)
  {
    var t := Fence + s + Fence;
    TrimUnchanged(t);
    assert !StartsWith(t, JsonFence) by {
      if |s| >= 4 {
        assert s[..4] != "json" && JsonFence[3..7] == "json";
        assert t[3..7] == s[..4];
      } else {
        assert t[3 + |s|] == '`' && JsonFence[3 + |s|] != '`';
      }
    }
    assert StartsWith(t, Fence);
    assert t[|t| - 3..] == Fence;
    LastIndexOfAtEnd(t, Fence);
    assert t[3..3 + |s|] == s;
  }

  /** The "```json" marker is tested before the bare one, so a bare fence
      around text beginning with "json" loses those four letters too: seven
      leading characters are cut, not three. */
  lemma JsonTagTakesPrecedence(s: string)
    ensures Normalise(Fence + "json" + s + Fence) == Trim(s)
  {
    assert Fence + "json" == JsonFence;
    JsonFenceRoundTrip(s);
  }

  /** A fenced reply whose content does not itself begin with a fence is
      handed to the decoder exactly as the unfenced reply would be. */
  lemma FenceTransparent(s: string)
    requires !StartsWith(Trim(s), Fence)
    ensures Normalise(JsonFence + s + Fence) == Normalise(s)
    ensures !StartsWith(s, "json") ==> Normalise(Fence + s + Fence) == Normalise(s)
  {
    JsonFenceRoundTrip(s);
    if !StartsWith(s, "json") {
      BareFenceRoundTrip(s);
    }
  }

  /** With a "```json" opening and a closing fence after it, the decoder
      gets the trimmed text between the two: the seven marker characters are
      cut and the substring bounds are not swapped. */
  lemma JsonFenceCutsSeven(raw: string)
    requires StartsWith(Trim(raw), JsonFence)
    requires LastIndexOf(Trim(raw), Fence) >= 7
    ensures Normalise(raw) == Trim(Trim(raw)[7..LastIndexOf(Trim(raw), Fence)])
  {
  }

  /** Without a closing fence, lastIndexOf finds the opening one at index 0,
      substring swaps its bounds, and the decoder is handed the opening
      marker itself instead of the text after it. */
  lemma UnclosedFence(raw: string)
    requires StartsWith(Trim(raw), Fence)
    requires LastIndexOf(Trim(raw), Fence) == 0
    ensures Normalise(raw) == if StartsWith(Trim(raw), JsonFence) then JsonFence else Fence
  {
    var t := Trim(raw);
    if StartsWith(t, JsonFence) {
      assert Substring(t, 7, 0) == JsonFence;
      TrimUnchanged(JsonFence);
    } else {
      assert Substring(t, 3, 0) == Fence;
      TrimUnchanged(Fence);
    }
  }
}
