/** How the front end reads the `/ask/` endpoint's reply. The endpoint's
    pydantic model writes every field, with `null` for an absent optional
    one. The chat page reads `type`, `answer`, `message` and
    `download_url`. `StructuredResponse`, which no page mounts, would read
    `answer_type`, `data`, `count`, `answer` and `explanation`. */
module AskWiring {
  import opened Text
  import AskEndpoint
  import StructuredResponse
  import ChatPage
  import Gemini

  /** The reply as `StructuredResponse` sees it. */
  function AsStructured(r: AskEndpoint.AskResponse): (s: StructuredResponse.Response)
    ensures s.answerType == Some(r.answerType) && s.answer.None?
    ensures s.count == r.count && s.explanation == r.explanation
    ensures s.data.Some? <==> r.data.Some?
    ensures r.data.Some? ==> s.data.value == AsItems(r.data.value)
  {
    StructuredResponse.Response(
      Some(r.answerType),
      if r.data.Some? then Some(AsItems(r.data.value)) else None,
      r.count,
      None,
      r.explanation)
  }

  function AsItems(items: seq<string>): (r: seq<StructuredResponse.Item>)
    ensures |r| == |items|
    ensures forall k :: 0 <= k < |items| ==> r[k] == StructuredResponse.Str(items[k])
  {
    if |items| == 0 then [] else [StructuredResponse.Str(items[0])] + AsItems(items[1..])
  }

  /** The reply as the chat page sees it: none of the four fields it reads
      is in the reply. */
  function AsChatReply(r: AskEndpoint.AskResponse): (c: ChatPage.AskReply)
    ensures c.kind.None? && c.answer.None? && c.message.None? && c.downloadUrl.None?
  {
    ChatPage.AskReply(None, None, None, None)
  }

  /** `StructuredResponse` would show a list answer as the extracted
      items, each without a trailing period, under a count equal to their
      number, also when the list is empty. */
  lemma ListAnswerShown(req: AskEndpoint.AskRequest, search: AskEndpoint.Search -> seq<string>,
                        apiKey: Option<string>, answer: (string, string) -> Gemini.Call)
    requires search(AskEndpoint.SearchFor(req)) != [] && AskEndpoint.IsListQuery(req.question)
    ensures var items := AskEndpoint.ExtractedItems(Join(search(AskEndpoint.SearchFor(req)), AskEndpoint.Paragraph));
      var v := StructuredResponse.Render(Some(AsStructured(AskEndpoint.Ask(req, search, apiKey, answer).value)));
      && v.ListView? && v.count == |items| && |v.items| == |items|
      && forall k :: 0 <= k < |items| ==> v.items[k] == StructuredResponse.Str(StructuredResponse.TrimPeriod(items[k]))
  {
  }

  /** `StructuredResponse` would show an explanation as its text, or as
      "No answer available" when the model's text is `None` or empty. */
  lemma ExplanationShown(req: AskEndpoint.AskRequest, search: AskEndpoint.Search -> seq<string>,
                         apiKey: Option<string>, answer: (string, string) -> Gemini.Call)
    requires search(AskEndpoint.SearchFor(req)) != [] && !AskEndpoint.IsListQuery(req.question)
    requires AskEndpoint.GenerateAnswer(apiKey, answer(Join(search(AskEndpoint.SearchFor(req)), AskEndpoint.Paragraph), req.question)).Ok?
    ensures var e := AskEndpoint.GenerateAnswer(apiKey, answer(Join(search(AskEndpoint.SearchFor(req)), AskEndpoint.Paragraph), req.question)).value;
      StructuredResponse.Render(Some(AsStructured(AskEndpoint.Ask(req, search, apiKey, answer).value)))
        == StructuredResponse.TextView(if e.Some? && e.value != "" then e.value else "No answer available")
  {
  }

  /** Whatever the endpoint answers, the chat page's bot message for it is
      the fallback "No response" of kind "text", without a download. */
  lemma ChatShowsNoResponse(r: AskEndpoint.AskResponse)
    ensures ChatPage.BotMessage(AsChatReply(r)) == ChatPage.Bot("text", "No response", None)
  {
  }
}
