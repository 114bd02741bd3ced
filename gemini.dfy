/** What the back end's language-model wrappers have in common: the API key
    check, the outcome of one `generate_content` call, and the removal of a
    Markdown code fence around the model's text. The model itself is not
    part of this model: each call's outcome is a parameter. */
module Gemini {
  import opened Text

  /** An exception raised by `generate_content`: the client library's
      `ClientError` (quota, bad request) or any other. */
  datatype CallError = ClientError | OtherError

  /** The outcome of one call: an exception, or a response whose `text` is
      `None` or a string. */
  datatype Call = Raised(error: CallError) | Reply(text: Option<string>)

  /** Why a wrapper failed: an exception it raised itself with a message,
      one from the call that it lets through, or the `AttributeError` of
      `None.strip()`. */
  datatype Failure = Message(message: string) | Propagated(error: CallError) | NoText

  /** `if not api_key`: a missing or empty environment variable. */
  predicate KeyMissing(apiKey: Option<string>) {
    apiKey.None? || apiKey.value == ""
  }

  const Fence := "```"

  /** `text.strip()`, then, when it starts with a fence, `text.split("```")[1]`:
      the text after the opening fence up to the next fence, or to the end
      when there is none. The ensures pin that piece down: it follows the
      opening fence, holds no fence, and ends at a fence or at the end. */
  function Unfence(text: string): (r: string)
    ensures !StartsWith(Strip(text, Python), Fence) ==> r == Strip(text, Python)
    ensures StartsWith(Strip(text, Python), Fence) ==> !Contains(r, Fence)
    ensures var t := Strip(text, Python);
      StartsWith(t, Fence) ==>
        && |Fence| + |r| <= |t| && r == t[|Fence|..|Fence| + |r|]
        && (|Fence| + |r| == |t| || OccursAt(t, Fence, |Fence| + |r|))
  {
    var t := Strip(text, Python);
    if StartsWith(t, Fence) then
      var rest := t[|Fence|..];
      match IndexOf(rest, Fence, 0)
      case None => rest
      case Some(k) =>
        NoFenceBefore(rest, k);
        ClosingFence(t, k);
        rest[..k]
    else t
  }

  /** The shape shared by `generate_mock_exam` and `generate_llm_plan`: a
      missing key raises `missingKey`; otherwise one call is made, its
      exceptions are not caught, and its text is stripped and unfenced. */
  function GenerateText(missingKey: string, apiKey: Option<string>, call: Call): (r: Result<string, Failure>)
    ensures KeyMissing(apiKey) ==> r == Err(Message(missingKey))
    ensures !KeyMissing(apiKey) && call.Raised? ==> r == Err(Propagated(call.error))
    ensures !KeyMissing(apiKey) && call == Reply(None) ==> r == Err(NoText)
    ensures r.Ok? <==> !KeyMissing(apiKey) && call.Reply? && call.text.Some?
    ensures r.Ok? ==> r.value == Unfence(call.text.value)
  {
    if KeyMissing(apiKey) then Err(Message(missingKey))
    else
      match call
      case Raised(e) => Err(Propagated(e))
      case Reply(None) => Err(NoText)
      case Reply(Some(raw)) => Ok(Unfence(raw))
  }

  /** A reply the model wrapped as a "```json" block comes back as the
      block's contents, with the "json" tag still in front. */
  lemma FencedReply(missingKey: string, apiKey: Option<string>, body: string)
    requires !KeyMissing(apiKey)
    requires forall k :: 0 <= k < |body| ==> body[k] != '`'
    ensures GenerateText(missingKey, apiKey, Reply(Some(Fence + "json\n" + body + "\n" + Fence))) == Ok("json\n" + body + "\n")
  {
    UnfenceKeepsTag("json", body);
    assert Fence + "json" + "\n" + body + "\n" + Fence == Fence + "json\n" + body + "\n" + Fence;
    assert "json" + "\n" + body + "\n" == "json\n" + body + "\n";
  }

  /** The fence found after the opening one is a fence of the whole text. */
  lemma ClosingFence(t: string, k: nat)
    requires |Fence| <= |t| && IndexOf(t[|Fence|..], Fence, 0) == Some(k)
    ensures OccursAt(t, Fence, |Fence| + k)
  {
    assert t[|Fence| + k..|Fence| + k + |Fence|] == t[|Fence|..][k..k + |Fence|];
  }

  /** No fence lies wholly before the first fence. */
  lemma NoFenceBefore(rest: string, k: nat)
    requires IndexOf(rest, Fence, 0) == Some(k)
    ensures !Contains(rest[..k], Fence)
  {
    if Contains(rest[..k], Fence) {
      var m := IndexOf(rest[..k], Fence, 0).value;
      assert rest[..k][m..m + |Fence|] == rest[m..m + |Fence|];
      assert OccursAt(rest, Fence, m);
    }
  }

  /** A fenced reply loses its fences and keeps its language tag: a reply
      "```json" + newline + body + newline + "```" becomes "json", newline,
      body, newline, when the body holds no backtick. */
  lemma UnfenceKeepsTag(tag: string, body: string)
    requires forall k :: 0 <= k < |tag| ==> tag[k] != '`' && !IsSpace(tag[k], Python)
    requires forall k :: 0 <= k < |body| ==> body[k] != '`'
    ensures Unfence(Fence + tag + "\n" + body + "\n" + Fence) == tag + "\n" + body + "\n"
  {
    var inner := tag + "\n" + body + "\n";
    var text := Fence + inner + Fence;
    assert text == Fence + tag + "\n" + body + "\n" + Fence;
    assert Strip(text, Python) == text by {
      assert !IsSpace(text[0], Python) && !IsSpace(text[|text| - 1], Python);
      StripOfTrimmed(text);
    }
    var rest := text[|Fence|..];
    assert rest == inner + Fence;
    NoFenceBeforeClosing(tag, body);
    assert OccursAt(rest, Fence, |inner|);
    assert rest[..|inner|] == inner;
  }

  /** In a tag and a body with no backtick, the closing fence is the first
      one. */
  lemma NoFenceBeforeClosing(tag: string, body: string)
    requires forall k :: 0 <= k < |tag| ==> tag[k] != '`'
    requires forall k :: 0 <= k < |body| ==> body[k] != '`'
    ensures var inner := tag + "\n" + body + "\n";
      forall m :: 0 <= m < |inner| ==> !OccursAt(inner + Fence, Fence, m)
  {
    var inner := tag + "\n" + body + "\n";
    var rest := inner + Fence;
    forall m | 0 <= m < |inner|
      ensures !OccursAt(rest, Fence, m)
    {
      assert rest[m] == inner[m];
      assert inner[m] != '`' by {
        if m < |tag| {
          assert inner[m] == tag[m];
        } else if |tag| < m < |tag| + 1 + |body| {
          assert inner[m] == body[m - |tag| - 1];
        }
      }
    }
  }

  /** A text with no whitespace at either end is its own strip. */
  lemma StripOfTrimmed(s: string)
    requires |s| > 0 && !IsSpace(s[0], Python) && !IsSpace(s[|s| - 1], Python)
    ensures Strip(s, Python) == s
  {
    assert LeadingSpace(s, Python) == 0;
  }
}
