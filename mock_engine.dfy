/** `generate_mock_exam` (`mock_engine.py`): after the key check, the
    model's reply is stripped and unfenced and returned as text, unparsed.
    Exceptions from the call are not caught. */
module MockEngine {
  import opened Text
  import opened Gemini

  /** `generate_mock_exam(context, chapter_name)`; the context and chapter
      only feed the prompt, which is not part of this model. */
  function GenerateMockExam(apiKey: Option<string>, call: Call): (r: Result<string, Failure>)
    ensures KeyMissing(apiKey) ==> r == Err(Message("GEMINI_API_KEY not found"))
    ensures r.Ok? <==> !KeyMissing(apiKey) && call.Reply? && call.text.Some?
    ensures r.Ok? ==> r.value == Unfence(call.text.value)
  {
    GenerateText("GEMINI_API_KEY not found", apiKey, call)
  }
}
