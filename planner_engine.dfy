/** `generate_llm_plan` (`planner_engine.py`): after the key check, the
    model's reply is stripped and unfenced and returned as text, unparsed.
    Exceptions from the call are not caught. */
module PlannerEngine {
  import opened Text
  import opened Gemini

  /** `generate_llm_plan(duration_days, chapter_name)`; both arguments
      only feed the prompt, which is not part of this model. */
  function GenerateLlmPlan(apiKey: Option<string>, call: Call): (r: Result<string, Failure>)
    ensures KeyMissing(apiKey) ==> r == Err(Message("No API key found"))
    ensures r.Ok? <==> !KeyMissing(apiKey) && call.Reply? && call.text.Some?
    ensures r.Ok? ==> r.value == Unfence(call.text.value)
  {
    GenerateText("No API key found", apiKey, call)
  }
}
