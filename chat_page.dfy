/** The chat page (`ChatPage`): a message list that only grows, and a
    keyword rule that decides whether a question opens the mock-exam page,
    opens the question-paper setup page after the back end answered, or is
    answered in the chat. The back end's reply to `/ask/` is a parameter;
    navigations and requests are recorded in lists. */
module ChatPage {
  import opened Text

  datatype Message =
    | User(content: string)
    | Bot(kind: string, text: string, downloadUrl: Option<string>)

  /** The fields of the `/ask/` reply the page reads; `None` is a missing
      or `null` field. */
  datatype AskReply = AskReply(kind: Option<string>, answer: Option<string>, message: Option<string>, downloadUrl: Option<string>)

  /** What `api.post` produced: a parsed reply, or a rejection (network
      error, non-2xx status, unreadable body). */
  datatype Outcome = Replied(data: AskReply) | Failed

  datatype Route = MockExam | QuestionPaperSetup

  /** A navigation and the state it carries. */
  datatype Navigation = Navigation(route: Route, grade: string, subject: string, chapter: Option<string>)

  datatype AskRequest = AskRequest(question: string, grade: string, subject: string, chapter: Option<string>)

  /** JavaScript `value || fallback` for a field holding a string: a missing
      field and the empty string both give the fallback. */
  function OrElse(value: Option<string>, fallback: string): (r: string)
    ensures value.Some? && value.value != "" ==> r == value.value
    ensures value.None? || value.value == "" ==> r == fallback
  {
    if value.Some? && value.value != "" then value.value else fallback
  }

  /** A question that is empty after trimming is ignored. */
  predicate IsBlank(question: string) {
    Strip(question, JavaScript) == []
  }

  /** The mock-test keyword rule, on the lower-cased question. */
  predicate WantsMock(lower: string) {
    (Contains(lower, "mock") || Contains(lower, "test")) && !Contains(lower, "paper")
  }

  /** The question-paper keyword rule, on the lower-cased question. */
  predicate WantsQuestionPaper(lower: string) {
    Contains(lower, "question paper")
  }

  /** A question that mentions "question paper" never takes the mock path,
      because it mentions "paper". */
  lemma QuestionPaperIsNeverMock(lower: string)
    ensures WantsQuestionPaper(lower) ==> !WantsMock(lower)
  {
    if WantsQuestionPaper(lower) {
      var i := IndexOf(lower, "question paper", 0).value;
      assert lower[i + 9..i + 14] == lower[i..i + 14][9..14];
      ContainsAt(lower, "paper", i + 9);
    }
  }

  /** The path `handleAsk` takes for a question. */
  datatype Intent = Blank | GoToMock | AskThenPaper | AskThenAnswer

  function Classify(question: string): Intent {
    var lower := Lower(question);
    if IsBlank(question) then Blank
    else if WantsMock(lower) then GoToMock
    else if WantsQuestionPaper(lower) then AskThenPaper
    else AskThenAnswer
  }

  /** Each path is taken exactly when its keyword rule holds: a question
      paper request is never taken for a mock-test request. */
  lemma ClassifyMeaning(question: string)
    ensures Classify(question) == Blank <==> IsBlank(question)
    ensures Classify(question) == GoToMock <==> !IsBlank(question) && WantsMock(Lower(question))
    ensures Classify(question) == AskThenPaper <==> !IsBlank(question) && WantsQuestionPaper(Lower(question))
    ensures Classify(question) == AskThenAnswer <==>
      !IsBlank(question) && !WantsMock(Lower(question)) && !WantsQuestionPaper(Lower(question))
  {
    QuestionPaperIsNeverMock(Lower(question));
  }

  /** The bot message built from a successful reply. */
  function BotMessage(data: AskReply): (m: Message)
    ensures m.Bot?
    ensures m.kind == OrElse(data.kind, "text") && m.text == OrElse(data.answer, OrElse(data.message, "No response"))
    ensures m.kind != "" && m.text != ""
    ensures m.downloadUrl.Some? <==> data.downloadUrl.Some? && data.downloadUrl.value != ""
  {
    Bot(OrElse(data.kind, "text"),
        OrElse(data.answer, OrElse(data.message, "No response")),
        if data.downloadUrl.Some? && data.downloadUrl.value != "" then data.downloadUrl else None)
  }

  /** The message appended when anything in the request path fails. */
  const FailureMessage := Bot("text", "Something went wrong.", None)

  /** The page without a grade or a subject only shows a prompt. */
  predicate ShowsPromptOnly(grade: Option<string>, subject: Option<string>) {
    grade.None? || grade.value == "" || subject.None? || subject.value == ""
  }

  class Chat {
    const grade: string
    const subject: string
    const chapter: Option<string>

    var question: string
    var messages: seq<Message>
    var loading: bool
    var requests: seq<AskRequest>
    var navigations: seq<Navigation>

    constructor (grade: string, subject: string, chapter: Option<string>)
      ensures this.grade == grade && this.subject == subject && this.chapter == chapter
      ensures question == "" && messages == [] && !loading && requests == [] && navigations == []
    {
      this.grade, this.subject, this.chapter := grade, subject, chapter;
      question := "";
      messages := [];
      loading := false;
      requests := [];
      navigations := [];
    }

    /** The input field. */
    method Type(text: string)
      modifies this`question
      ensures question == text
    {
      question := text;
    }

    /** `handleAsk`, with `reply` standing for what the back end would
        answer if the page asks it. */
    method Ask(reply: Outcome)
      modifies this`question, this`messages, this`loading, this`requests, this`navigations
      // A blank question changes nothing.
      ensures Classify(old(question)) == Blank ==>
        question == old(question) && messages == old(messages) && loading == old(loading) &&
        requests == old(requests) && navigations == old(navigations)
      // Otherwise the user message comes first and loading ends false.
      ensures Classify(old(question)) != Blank ==>
        |messages| > |old(messages)| && messages[..|old(messages)| + 1] == old(messages) + [User(old(question))] && !loading
      // The mock path: navigate, no request, no bot message.
      ensures Classify(old(question)) == GoToMock ==>
        messages == old(messages) + [User(old(question))] && question == "" &&
        requests == old(requests) &&
        navigations == old(navigations) + [Navigation(MockExam, grade, subject, chapter)]
      // Every other question is sent to the back end, exactly once.
      ensures Classify(old(question)) in {AskThenPaper, AskThenAnswer} ==>
        requests == old(requests) + [AskRequest(old(question), grade, subject, chapter)]
      // A failed request: one failure message, the question is kept.
      ensures Classify(old(question)) in {AskThenPaper, AskThenAnswer} && reply.Failed? ==>
        messages == old(messages) + [User(old(question)), FailureMessage] &&
        question == old(question) && navigations == old(navigations)
      // A "question paper" question after a reply: navigate, no bot message.
      ensures Classify(old(question)) == AskThenPaper && reply.Replied? ==>
        messages == old(messages) + [User(old(question))] && question == "" &&
        navigations == old(navigations) + [Navigation(QuestionPaperSetup, grade, subject, chapter)]
      // Any other reply: exactly one bot message.
      ensures Classify(old(question)) == AskThenAnswer && reply.Replied? ==>
        messages == old(messages) + [User(old(question)), BotMessage(reply.data)] && question == "" &&
        navigations == old(navigations)
    {
      Follow(Classify(question), reply);
    }

    /** The rest of `handleAsk` once the question's path is known. */
    method Follow(intent: Intent, reply: Outcome)
      modifies this`question, this`messages, this`loading, this`requests, this`navigations
      // A blank question changes nothing.
      ensures intent == Blank ==>
        question == old(question) && messages == old(messages) && loading == old(loading) &&
        requests == old(requests) && navigations == old(navigations)
      // Otherwise the user message comes first and loading ends false.
      ensures intent != Blank ==>
        |messages| > |old(messages)| && messages[..|old(messages)| + 1] == old(messages) + [User(old(question))] && !loading
      // The mock path: navigate, no request, no bot message.
      ensures intent == GoToMock ==>
        messages == old(messages) + [User(old(question))] && question == "" &&
        requests == old(requests) &&
        navigations == old(navigations) + [Navigation(MockExam, grade, subject, chapter)]
      // Every other question is sent to the back end, exactly once.
      ensures intent in {AskThenPaper, AskThenAnswer} ==>
        requests == old(requests) + [AskRequest(old(question), grade, subject, chapter)]
      // A failed request: one failure message, the question is kept.
      ensures intent in {AskThenPaper, AskThenAnswer} && reply.Failed? ==>
        messages == old(messages) + [User(old(question)), FailureMessage] &&
        question == old(question) && navigations == old(navigations)
      // A "question paper" question after a reply: navigate, no bot message.
      ensures intent == AskThenPaper && reply.Replied? ==>
        messages == old(messages) + [User(old(question))] && question == "" &&
        navigations == old(navigations) + [Navigation(QuestionPaperSetup, grade, subject, chapter)]
      // Any other reply: exactly one bot message.
      ensures intent == AskThenAnswer && reply.Replied? ==>
        messages == old(messages) + [User(old(question)), BotMessage(reply.data)] && question == "" &&
        navigations == old(navigations)
    {
      if intent == Blank {
        return;
      }
      var asked := question;
      var added := [User(asked)];
      var sent := requests;
      var visited := navigations;
      var next := asked;
      if intent == GoToMock {
        visited := visited + [Navigation(MockExam, grade, subject, chapter)];
        next := "";
      } else {
        sent := sent + [AskRequest(asked, grade, subject, chapter)];
        match reply {
          case Failed =>
            added := [User(asked), FailureMessage];
          case Replied(data) =>
            if intent == AskThenPaper {
              visited := visited + [Navigation(QuestionPaperSetup, grade, subject, chapter)];
            } else {
              added := [User(asked), BotMessage(data)];
            }
            next := "";
        }
      }
      assert (messages + added)[..|messages| + 1] == messages + [User(asked)];
      question, messages, loading, requests, navigations := next, messages + added, false, sent, visited;
    }
  }

  /** The message list only grows: every ask keeps the earlier messages as
      a prefix and adds at most two. */
  method AskTwice(grade: string, subject: string, first: string, second: string, r1: Outcome, r2: Outcome)
    returns (history: seq<Message>)
    ensures IsBlank(first) && IsBlank(second) ==> history == []
    ensures !IsBlank(first) ==> |history| >= 1 && history[0] == User(first)
    ensures |history| <= 4
  {
    var page := new Chat(grade, subject, None);
    page.Type(first);
    page.Ask(r1);
    page.Type(second);
    page.Ask(r2);
    history := page.messages;
  }
}
