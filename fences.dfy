/**
 * Removal of the markdown code fence that the Gemini model tends to wrap
 * around its JSON answer, before the answer is parsed.
 */
module Fences {
  import opened Strings

  const Fence: string := "```"
  const JsonFence: string := "```json"

  /** `if text.startswith(marker): text = text[len(marker):]` */
  function RemovePrefix(text: string, marker: string): (r: string)
    ensures if StartsWith(text, marker) then marker + r == text else r == text
    ensures Contains(text, r)
  {
    if StartsWith(text, marker) then
      ContainsSlice(text, |marker|, |text|);
      assert marker + text[|marker|..] == text;
      text[|marker|..]
    else
      ContainsSelf(text);
      text
  }

  /** `if text.endswith(marker): text = text[:-len(marker)]` */
  function RemoveSuffix(text: string, marker: string): (r: string)
    requires marker != []
    ensures if EndsWith(text, marker) then r + marker == text else r == text
    ensures Contains(text, r)
  {
    if EndsWith(text, marker) then
      ContainsSlice(text, 0, |text| - |marker|);
      assert text[..|text| - |marker|] + marker == text;
      text[..|text| - |marker|]
    else
      ContainsSelf(text);
      text
  }

  /** The response with surrounding whitespace, one leading "```json" and/or
      "```" marker and one trailing "```" marker removed, then stripped again.
      Only the "json" language tag is recognised. */
  function CleanJsonResponse(responseText: string): (r: string)
    ensures IsStripped(r)
  {
    var text := Strip(responseText);
    var afterTag := RemovePrefix(text, JsonFence);
    var afterOpen := RemovePrefix(afterTag, Fence);
    var afterClose := RemoveSuffix(afterOpen, Fence);
    Strip(afterClose)
  }

  /** The cleaned text is a contiguous slice of the response, so never longer. */
  lemma CleanJsonResponseIsSlice(responseText: string)
    ensures Contains(responseText, CleanJsonResponse(responseText))
    ensures |CleanJsonResponse(responseText)| <= |responseText|
  {
    var text := Strip(responseText);
    var afterTag := RemovePrefix(text, JsonFence);
    var afterOpen := RemovePrefix(afterTag, Fence);
    var afterClose := RemoveSuffix(afterOpen, Fence);
    StripIsSlice(responseText);
    StripIsSlice(afterClose);
    ContainsTransitive(responseText, text, afterTag);
    ContainsTransitive(responseText, afterTag, afterOpen);
    ContainsTransitive(responseText, afterOpen, afterClose);
    ContainsTransitive(responseText, afterClose, Strip(afterClose));
    ContainsShorter(responseText, CleanJsonResponse(responseText));
  }

  lemma JsonFenceIsFence(s: string)
    requires StartsWith(s, JsonFence)
    ensures StartsWith(s, Fence)
  {
    assert s[..3] == s[..7][..3];
  }

  /** Text that carries no fence marker at either end only loses its
      surrounding whitespace. */
  lemma UnfencedOnlyStripped(responseText: string)
    requires !StartsWith(Strip(responseText), Fence)
    requires !EndsWith(Strip(responseText), Fence)
    ensures CleanJsonResponse(responseText) == Strip(responseText)
  {
    if StartsWith(Strip(responseText), JsonFence) {
      JsonFenceIsFence(Strip(responseText));
    }
    StripStripped(Strip(responseText));
  }

  /** Already-stripped unfenced text is returned unchanged. */
  lemma UnfencedStrippedUnchanged(responseText: string)
    requires IsStripped(responseText)
    requires !StartsWith(responseText, Fence) && !EndsWith(responseText, Fence)
    ensures CleanJsonResponse(responseText) == responseText
  {
    StripStripped(responseText);
    UnfencedOnlyStripped(responseText);
  }

  lemma RemovePrefixPresent(marker: string, rest: string)
    ensures RemovePrefix(marker + rest, marker) == rest
  {
    assert (marker + rest)[..|marker|] == marker;
    assert (marker + rest)[|marker|..] == rest;
  }

  lemma RemovePrefixAbsent(text: string, marker: string, k: nat)
    requires k < |text| && k < |marker| && text[k] != marker[k]
    ensures RemovePrefix(text, marker) == text
  {
    assert |marker| <= |text| ==> text[..|marker|][k] == text[k];
  }

  lemma RemoveSuffixPresent(rest: string, marker: string)
    requires marker != []
    ensures RemoveSuffix(rest + marker, marker) == rest
  {
    assert (rest + marker)[|rest|..] == marker;
    assert (rest + marker)[..|rest|] == rest;
  }

  /** The steps of `CleanJsonResponse`, one after the other. */
  lemma CleanJsonResponseSteps(responseText: string)
    ensures CleanJsonResponse(responseText)
         == Strip(RemoveSuffix(RemovePrefix(RemovePrefix(Strip(responseText), JsonFence), Fence), Fence))
  {
  }

  /** A fenced text starts and ends with a backtick, so `strip` keeps it whole. */
  lemma FencedIsStripped(opening: string, inner: string)
    requires opening == JsonFence || opening == Fence
    ensures IsStripped(opening + inner + Fence)
  {
    var s := opening + inner + Fence;
    assert s[0] == '`' && s[|s| - 1] == '`';
  }

  /** Cleaning a text that `strip` keeps whole, given the result of each
      marker removal. */
  lemma CleanFromSteps(s: string, afterTag: string, afterOpen: string, afterClose: string)
    requires IsStripped(s)
    requires RemovePrefix(s, JsonFence) == afterTag
    requires RemovePrefix(afterTag, Fence) == afterOpen
    requires RemoveSuffix(afterOpen, Fence) == afterClose
    ensures CleanJsonResponse(s) == Strip(afterClose)
  {
    StripStripped(s);
    CleanJsonResponseSteps(s);
  }

  /** Text that starts with whitespace does not start with a fence. */
  lemma SpaceFirstKeepsPrefix(inner: string)
    requires inner != [] && IsSpace(inner[0])
    ensures RemovePrefix(inner + Fence, Fence) == inner + Fence
  {
    assert (inner + Fence)[0] == inner[0];
    RemovePrefixAbsent(inner + Fence, Fence, 0);
  }

  /** When whitespace follows the opening "```json" marker, cleaning removes
      both markers and strips what was between them. */
  lemma JsonFenceRemoved(inner: string)
    requires inner != [] && IsSpace(inner[0])
    ensures CleanJsonResponse(JsonFence + inner + Fence) == Strip(inner)
  {
    FencedIsStripped(JsonFence, inner);
    Associative(JsonFence, inner, Fence);
    RemovePrefixPresent(JsonFence, inner + Fence);
    SpaceFirstKeepsPrefix(inner);
    RemoveSuffixPresent(inner, Fence);
    CleanFromSteps(JsonFence + inner + Fence, inner + Fence, inner + Fence, inner);
  }

  /** With nothing between the "```json" tag and the body, the fence still
      goes, provided what follows the tag does not itself start with "```". */
  lemma TightJsonFenceRemoved(body: string)
    requires IsStripped(body)
    requires !StartsWith(body + Fence, Fence)
    ensures CleanJsonResponse(JsonFence + body + Fence) == body
  {
    FencedIsStripped(JsonFence, body);
    Associative(JsonFence, body, Fence);
    RemovePrefixPresent(JsonFence, body + Fence);
    RemoveSuffixPresent(body, Fence);
    CleanFromSteps(JsonFence + body + Fence, body + Fence, body + Fence, body);
    StripStripped(body);
  }

  /** The fixture without the newlines: "```json{...}```" also cleans to the
      object. */
  lemma CleanTightFencedObject()
    ensures CleanJsonResponse("```json{\"key\": \"value\"}```") == "{\"key\": \"value\"}"
  {
    var body := "{\"key\": \"value\"}";
    assert IsStripped(body) by { assert body[0] == '{' && body[|body| - 1] == '}'; }
    assert !StartsWith(body + Fence, Fence) by { assert (body + Fence)[0] == '{'; }
    assert JsonFence + body + Fence == "```json{\"key\": \"value\"}```";
    TightJsonFenceRemoved(body);
  }

  /** The same for a bare "```" marker, whatever follows it, as long as it
      does not begin the "json" tag. */
  lemma BareFenceRemoved(inner: string)
    requires inner != [] && inner[0] != JsonFence[3]
    ensures CleanJsonResponse(Fence + inner + Fence) == Strip(inner)
  {
    var s := Fence + inner + Fence;
    FencedIsStripped(Fence, inner);
    assert s[3] == inner[0];
    RemovePrefixAbsent(s, JsonFence, 3);
    Associative(Fence, inner, Fence);
    RemovePrefixPresent(Fence, inner + Fence);
    RemoveSuffixPresent(inner, Fence);
    CleanFromSteps(s, s, inner + Fence, inner);
  }

  /** Removing the fence undoes wrapping a stripped body in a "```json" or a
      bare "```" fence, with whitespace (at least one character, such as the
      newline after the tag) after the opening marker and any whitespace
      before the closing one. */
  lemma FencedRoundTrip(opening: string, w1: string, body: string, w2: string)
    requires opening == JsonFence || opening == Fence
    requires AllSpace(w1) && |w1| > 0 && AllSpace(w2)
    requires IsStripped(body)
    ensures CleanJsonResponse(opening + (w1 + body + w2) + Fence) == body
  {
    assert (w1 + body + w2)[0] == w1[0];
    assert !IsSpace(JsonFence[3]);
    if opening == JsonFence {
      JsonFenceRemoved(w1 + body + w2);
    } else {
      BareFenceRemoved(w1 + body + w2);
    }
    StripPadded(w1, body, w2);
  }

  /** The fixture used for the function: a fenced one-pair object comes back
      without its fence and newlines. */
  lemma CleanFencedObject()
    ensures CleanJsonResponse("```json\n{\"key\": \"value\"}\n```") == "{\"key\": \"value\"}"
  {
    var body := "{\"key\": \"value\"}";
    assert JsonFence + ("\n" + body + "\n") + Fence == "```json\n{\"key\": \"value\"}\n```";
    FencedRoundTrip(JsonFence, "\n", body, "\n");
  }

  /** The same object without a fence is returned as it is. */
  lemma CleanUnfencedObject()
    ensures CleanJsonResponse("{\"key\": \"value\"}") == "{\"key\": \"value\"}"
  {
    var body := "{\"key\": \"value\"}";
    assert body[..3][0] != Fence[0];
    assert body[|body| - 3..][2] != Fence[2];
    UnfencedStrippedUnchanged(body);
  }

  /** A trailing newline after stripped text is all that `strip` removes. */
  lemma StripTrailingNewline(body: string)
    requires IsStripped(body)
    ensures Strip(body + "\n") == body
  {
    assert [] + body + "\n" == body + "\n";
    StripPadded([], body, "\n");
  }

  /** A language tag other than "json" is not removed: only the backticks go,
      and the tag stays at the front of the text that is handed to the parser. */
  lemma OtherLanguageTagKept()
    ensures CleanJsonResponse("```python\n{}\n```") == "python\n{}"
  {
    var body := "python\n{}";
    assert IsStripped(body) by { assert body[0] == 'p' && body[|body| - 1] == '}'; }
    assert Fence + (body + "\n") + Fence == "```python\n{}\n```";
    BareFenceRemoved(body + "\n");
    StripTrailingNewline(body);
  }
}
