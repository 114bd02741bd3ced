/** `regenerate_question_paper_with_modifications`
    (`question_paper_modify_engine.py`): after the key check, the model's
    reply is stripped and `text[text.find("{") : text.rfind("}") + 1]` is
    parsed. The original paper only feeds the prompt, which is not part of
    this model. The JSON parser is a parameter. */
module QuestionPaperModifyEngine {
  import opened Text
  import opened Gemini
  import QuestionPaperEngine

  /** `s.find(t)`: the lowest index where `t` occurs, -1 when absent. */
  function Find(s: string, t: string): (i: int)
    ensures i == -1 <==> !Contains(s, t)
    ensures i >= 0 ==> OccursAt(s, t, i)
    ensures i >= 0 ==> forall k :: 0 <= k < i ==> !OccursAt(s, t, k)
  {
    match IndexOf(s, t, 0)
    case None => -1
    case Some(i) => i
  }

  /** `s.rfind(c)` for one character: -1 when absent. */
  function RFind(s: string, c: char): (i: int)
    ensures -1 <= i < |s|
    ensures i >= 0 ==> s[i] == c
    ensures forall k :: i < k < |s| ==> s[k] != c
  {
    match LastIndexOf(s, c)
    case None => -1
    case Some(i) => i
  }

  /** A slice bound as Python reads it: negative counts from the end, and
      the result is clamped to `0..n`. */
  function SliceBound(i: int, n: nat): (b: nat)
    ensures b <= n
    ensures 0 <= i <= n ==> b == i
    ensures i > n ==> b == n
    ensures i < 0 ==> b == if i + n < 0 then 0 else i + n
  {
    if i < 0 then (if i + n < 0 then 0 else i + n)
    else if i > n then n else i
  }

  /** `s[start:end]`. */
  function PySlice(s: string, start: int, end: int): (r: string)
    ensures SliceBound(start, |s|) < SliceBound(end, |s|) ==> r == s[SliceBound(start, |s|)..SliceBound(end, |s|)]
    ensures SliceBound(start, |s|) >= SliceBound(end, |s|) ==> r == ""
  {
    var b, e := SliceBound(start, |s|), SliceBound(end, |s|);
    if b < e then s[b..e] else ""
  }

  /** `text[text.find("{") : text.rfind("}") + 1]`. */
  function CleanJson(text: string): string {
    PySlice(text, Find(text, "{"), RFind(text, '}') + 1)
  }

  /** When a "{" comes before the last "}", the slice is the same span the
      question paper generator's regular expression finds; both start with
      "{" and end with "}". */
  lemma CleanJsonAgreesWithSpan(text: string)
    requires QuestionPaperEngine.JsonSpan(text).Some?
    ensures CleanJson(text) == QuestionPaperEngine.SpanText(text)
  {
    var s := QuestionPaperEngine.JsonSpan(text).value;
    var i := Find(text, "{");
    assert OccursAt(text, "{", s.start) by {
      assert text[s.start..s.start + 1] == [text[s.start]];
    }
    assert i == s.start;
    var j := RFind(text, '}');
    assert j == s.end - 1;
  }

  /** Without any "}" the slice is empty: `rfind` gives -1, so the end
      bound is 0. */
  lemma CleanJsonWithoutClose(text: string)
    requires forall k :: 0 <= k < |text| ==> text[k] != '}'
    ensures CleanJson(text) == ""
  {
  }

  /** `regenerate_question_paper_with_modifications`; `call` is what
      `generate_content` did, `parse` is `json.loads`. */
  function RegenerateWithModifications<J>(apiKey: Option<string>, call: Call, parse: string -> Option<J>)
    : (r: Result<J, Failure>)
    ensures KeyMissing(apiKey) ==> r == Err(Message("API key not configured."))
    ensures !KeyMissing(apiKey) && call == Raised(ClientError) ==> r == Err(Message("Gemini quota exceeded."))
    ensures r.Err? && !KeyMissing(apiKey) && call != Raised(ClientError) ==>
      r == Err(Message("Failed to modify question paper."))
    ensures r.Ok? <==>
      !KeyMissing(apiKey) && call.Reply? && call.text.Some? &&
      parse(CleanJson(Strip(call.text.value, Python))).Some?
    ensures r.Ok? ==> r.value == parse(CleanJson(Strip(call.text.value, Python))).value
  {
    if KeyMissing(apiKey) then Err(Message("API key not configured."))
    else
      match call
      case Raised(ClientError) => Err(Message("Gemini quota exceeded."))
      case Raised(OtherError) => Err(Message("Failed to modify question paper."))
      case Reply(None) => Err(Message("Failed to modify question paper."))
      case Reply(Some(raw)) =>
        match parse(CleanJson(Strip(raw, Python)))
        case None => Err(Message("Failed to modify question paper."))
        case Some(paper) => Ok(paper)
  }

  /** A reply without any "}" is never accepted when the parser rejects
      the empty text, as `json.loads("")` does. */
  lemma NoCloseBraceFails<J>(apiKey: Option<string>, raw: string, parse: string -> Option<J>)
    requires parse("").None?
    requires forall k :: 0 <= k < |raw| ==> raw[k] != '}'
    ensures RegenerateWithModifications(apiKey, Reply(Some(raw)), parse).Err?
  {
    var text := Strip(raw, Python);
    var lo := LeadingSpace(raw, Python);
    forall k | 0 <= k < |text|
      ensures text[k] != '}'
    {
      assert text[k] == raw[lo + k];
    }
    CleanJsonWithoutClose(text);
  }
}
