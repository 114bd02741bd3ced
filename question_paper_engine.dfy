/** `generate_question_paper_llm` (`question_paper_engine.py`): after the
    key check, the model's reply is stripped, the span from its first "{"
    to its last "}" is cut out and parsed; every failure inside the call
    becomes one of two messages. The JSON parser is a parameter. */
module QuestionPaperEngine {
  import opened Text
  import opened Gemini

  const ContextLimit := 4000

  /** `context[:4000]`. */
  function Truncate(context: string): (r: string)
    ensures |r| == if |context| < ContextLimit then |context| else ContextLimit
    ensures r == context[..|r|]
  {
    if |context| <= ContextLimit then context else context[..ContextLimit]
  }

  /** A match of `\{.*\}` with `re.DOTALL`, as the half-open range it covers. */
  datatype Span = Span(start: nat, end: nat)

  /** `re.search(r"\{.*\}", text, re.DOTALL)`: the leftmost "{" that has a
      "}" after it, and the greedy `.*` runs to the last "}". */
  function JsonSpan(text: string): (r: Option<Span>)
    ensures r.Some? ==> r.value.start < r.value.end <= |text|
    ensures r.Some? ==> text[r.value.start] == '{' && text[r.value.end - 1] == '}'
    ensures r.Some? ==> forall k :: 0 <= k < r.value.start ==> text[k] != '{'
    ensures r.Some? ==> forall k :: r.value.end <= k < |text| ==> text[k] != '}'
    ensures r.None? <==> forall i, j :: 0 <= i < j < |text| ==> text[i] != '{' || text[j] != '}'
  {
    match (IndexOf(text, "{", 0), LastIndexOf(text, '}'))
    case (Some(i), Some(j)) =>
      assert text[i] == text[i..i + 1][0];
      assert forall k :: 0 <= k < i ==> text[k] != '{' by {
        forall k | 0 <= k < i
          ensures text[k] != '{'
        {
          assert !OccursAt(text, "{", k);
        }
      }
      if i < j then Some(Span(i, j + 1)) else None
    case (Some(i), None) => None
    case (None, _) =>
      assert forall k :: 0 <= k < |text| ==> text[k] != '{' by {
        forall k | 0 <= k < |text|
          ensures text[k] != '{'
        {
          assert !OccursAt(text, "{", k);
        }
      }
      None
  }

  /** `generate_question_paper_llm`; `call` is what `generate_content`
      did, `parse` is `json.loads` (`None` for a parse error). */
  function GenerateQuestionPaper<J>(apiKey: Option<string>, context: string, call: Call, parse: string -> Option<J>)
    : (r: Result<J, Failure>)
    ensures KeyMissing(apiKey) ==> r == Err(Message("API key not configured."))
    ensures !KeyMissing(apiKey) && call == Raised(ClientError) ==> r == Err(Message("Gemini quota exceeded"))
    ensures r.Err? && !KeyMissing(apiKey) && call != Raised(ClientError) ==>
      r == Err(Message("Failed to generate question paper."))
    ensures r.Ok? <==>
      && !KeyMissing(apiKey) && call.Reply? && call.text.Some?
      && JsonSpan(Strip(call.text.value, Python)).Some?
      && parse(SpanText(Strip(call.text.value, Python))).Some?
    ensures r.Ok? ==> r.value == parse(SpanText(Strip(call.text.value, Python))).value
  {
    if KeyMissing(apiKey) then Err(Message("API key not configured."))
    else
      var _ := Truncate(context);
      match call
      case Raised(ClientError) => Err(Message("Gemini quota exceeded"))
      case Raised(OtherError) => Err(Message("Failed to generate question paper."))
      case Reply(None) => Err(Message("Failed to generate question paper."))
      case Reply(Some(raw)) =>
        if raw == "" then Err(Message("Failed to generate question paper."))
        else
          var text := Strip(raw, Python);
          if JsonSpan(text).None? then Err(Message("Failed to generate question paper."))
          else
            match parse(SpanText(text))
            case None => Err(Message("Failed to generate question paper."))
            case Some(paper) => Ok(paper)
  }

  /** The text of the span, or "" when there is none. */
  function SpanText(text: string): (r: string)
    ensures JsonSpan(text).Some? ==> |r| >= 2 && r[0] == '{' && r[|r| - 1] == '}'
    ensures JsonSpan(text).None? ==> r == ""
  {
    match JsonSpan(text)
    case None => ""
    case Some(s) => text[s.start..s.end]
  }

  /** A reply that is exactly one JSON object, perhaps with whitespace or
      prose around it that has no braces, yields that object. */
  lemma SpanOfWrappedObject(before: string, body: string, after: string)
    requires |body| >= 2 && body[0] == '{' && body[|body| - 1] == '}'
    requires forall k :: 0 <= k < |before| ==> before[k] != '{'
    requires forall k :: 0 <= k < |after| ==> after[k] != '}'
    ensures SpanText(before + body + after) == body
  {
    var text := before + body + after;
    assert text[|before|] == '{';
    assert text[|before| + |body| - 1] == '}';
    var s := JsonSpan(text).value;
    assert s.start == |before|;
    assert s.end == |before| + |body|;
    assert text[s.start..s.end] == body;
  }
}
