/** The timed mock-exam page (`MockPage`).

    The page keeps a loaded exam, the answers chosen so far, a countdown in
    seconds, a `started` flag and the graded result. The one-second interval
    that the page's timer effect installs is modelled as an explicit `Tick`
    operation; the effect's second branch (submit when the countdown is 0
    while started) runs after every change of `started` or `timeLeft`. The
    grading service is a function supplied when the page is created, and
    every grading request the page sends is recorded in `sent`. */
module MockPage {
  import opened Text

  datatype Question = Question(id: int, prompt: string, options: seq<string>, correctAnswer: string)

  /** The generation service's reply; its `durationMinutes` is not used by
      the page. */
  datatype MockData = MockData(questions: seq<Question>, durationMinutes: int, chapter: string)

  /** One entry of a grading request (`AnswerItem` of the back end). */
  datatype AnswerItem = AnswerItem(questionId: int, selectedAnswer: string, correctAnswer: string)

  datatype Score = Score(totalQuestions: int, correct: int, percentage: real)

  /** The answer stored for a question, or the empty string. */
  function Selected(answers: map<int, string>, id: int): string {
    if id in answers then answers[id] else ""
  }

  /** The grading request: one entry per loaded question, in question order. */
  function BuildSubmission(questions: seq<Question>, answers: map<int, string>): (s: seq<AnswerItem>)
    ensures |s| == |questions|
    ensures forall k :: 0 <= k < |s| ==>
      s[k] == AnswerItem(questions[k].id, Selected(answers, questions[k].id), questions[k].correctAnswer)
  {
    if |questions| == 0 then []
    else
      var q := questions[0];
      [AnswerItem(q.id, Selected(answers, q.id), q.correctAnswer)] + BuildSubmission(questions[1..], answers)
  }

  /** Selecting an option for question `id` changes the entries of the
      submission that belong to `id` and no other entry. */
  lemma SelectChangesOnlyItsEntries(questions: seq<Question>, answers: map<int, string>, id: int, option: string)
    ensures var before, after := BuildSubmission(questions, answers), BuildSubmission(questions, answers[id := option]);
      |after| == |before| &&
      forall k :: 0 <= k < |after| ==>
        if questions[k].id == id then after[k].selectedAnswer == option && after[k].correctAnswer == before[k].correctAnswer
        else after[k] == before[k]
  {
  }

  /** The worked example of the exam design: question 1 answered "A",
      question 2 left unanswered. */
  lemma SubmissionExample()
    ensures
      var qs := [Question(1, "", ["A", "B"], "A"), Question(2, "", ["A", "B"], "B")];
      BuildSubmission(qs, map[1 := "A"]) == [AnswerItem(1, "A", "A"), AnswerItem(2, "", "B")]
  {
    var qs := [Question(1, "", ["A", "B"], "A"), Question(2, "", ["A", "B"], "B")];
    assert BuildSubmission(qs[1..], map[1 := "A"]) == [AnswerItem(2, "", "B")];
  }

  /** The countdown as shown: whole minutes (`Math.floor`) and the seconds
      as `String(timeLeft % 60).padStart(2, "0")`. */
  datatype Clock = Clock(minutes: int, seconds: string)

  function TimeDisplay(timeLeft: int): (c: Clock)
    ensures c.minutes * 60 <= timeLeft < c.minutes * 60 + 60
  {
    Clock(timeLeft / 60, PadStart(IntToString(JsRem(timeLeft, 60)), 2, '0'))
  }

  /** For a countdown that is not negative the seconds are always two
      digits, and minutes and seconds together give back the countdown. */
  lemma {:induction false} TimeDisplayRoundTrip(timeLeft: nat)
    ensures var c := TimeDisplay(timeLeft);
      |c.seconds| == 2 && IsDigit(c.seconds[0]) && IsDigit(c.seconds[1]) &&
      c.minutes * 60 + DecimalValue(c.seconds) == timeLeft
  {
    var sec := timeLeft % 60;
    var text := NatToString(sec);
    var c := TimeDisplay(timeLeft);
    assert IntToString(JsRem(timeLeft, 60)) == text;
    DecimalRoundTrip(sec);
    if sec < 10 {
      assert text == [DigitChar(sec)];
      assert c.seconds == ['0'] + text;
      assert c.seconds[..1] == ['0'];
    } else {
      assert |text| == 2 by {
        assert sec / 10 < 10;
        assert NatToString(sec / 10) == [DigitChar(sec / 10)];
      }
      assert c.seconds == text;
    }
  }

  class Session {
    /** The grading service behind `/submit-mock/`. */
    const grader: seq<AnswerItem> -> Score

    var durationMinutes: int
    var mockData: Option<MockData>
    var answers: map<int, string>
    var timeLeft: int
    var started: bool
    var result: Option<Score>
    /** Every grading request sent, oldest first. */
    var sent: seq<seq<AnswerItem>>

    /** Answers exist only for loaded questions, and nothing happens
        before a test is loaded. */
    ghost predicate Valid()
      reads this
    {
      && (mockData.None? ==> answers == map[] && !started && result.None? && sent == [])
      && (mockData.Some? ==> forall id :: id in answers ==> exists q :: q in mockData.value.questions && q.id == id)
    }

    /** The setup panel: shown while no test is loaded. */
    predicate ShowsSetup()
      reads this
    {
      mockData.None?
    }

    /** The Start button: shown once a test is loaded and not yet started. */
    predicate ShowsStart()
      reads this
    {
      mockData.Some? && !started
    }

    /** The clock, the questions and the Submit button. */
    predicate ShowsExam()
      reads this
    {
      started && result.None? && mockData.Some?
    }

    constructor (grader: seq<AnswerItem> -> Score)
      ensures Valid() && this.grader == grader
      ensures durationMinutes == 15 && mockData.None? && answers == map[]
      ensures timeLeft == 0 && !started && result.None? && sent == []
    {
      this.grader := grader;
      durationMinutes := 15;
      mockData := None;
      answers := map[];
      timeLeft := 0;
      started := false;
      result := None;
      sent := [];
    }

    /** The duration field of the setup panel. */
    method SetDuration(minutes: int)
      requires Valid()
      modifies this`durationMinutes
      ensures Valid() && durationMinutes == minutes
    {
      durationMinutes := minutes;
    }

    /** `generateMock`: stores the reply and sets the countdown from the
        page's own duration field, not from the reply. */
    method Generate(data: MockData)
      requires Valid() && ShowsSetup()
      modifies this`mockData, this`timeLeft
      ensures Valid()
      ensures mockData == Some(data) && timeLeft == durationMinutes * 60
      ensures !started && sent == old(sent)
    {
      mockData := Some(data);
      timeLeft := durationMinutes * 60;
    }

    /** `handleSelect`: overwrites the answer for `id`, keeps all others. */
    method Select(id: int, option: string)
      requires Valid() && ShowsExam()
      requires exists q :: q in mockData.value.questions && q.id == id
      modifies this`answers
      ensures Valid()
      ensures answers == old(answers)[id := option]
      ensures forall other :: other != id ==> Selected(answers, other) == Selected(old(answers), other)
    {
      answers := answers[id := option];
    }

    /** `handleSubmit`: builds the request from the loaded questions, sends
        it and stores the grade. The countdown, `started` and the answers
        are left as they are. */
    method Submit()
      requires Valid() && mockData.Some?
      modifies this`result, this`sent
      ensures Valid()
      ensures sent == old(sent) + [BuildSubmission(mockData.value.questions, answers)]
      ensures result == Some(grader(BuildSubmission(mockData.value.questions, answers)))
    {
      var submission := BuildSubmission(mockData.value.questions, answers);
      sent := sent + [submission];
      result := Some(grader(submission));
    }

    /** The timer effect's second branch, run after `started` or
        `timeLeft` changed. */
    method TimerEffect()
      requires Valid()
      modifies this`result, this`sent
      ensures Valid()
      ensures started && timeLeft == 0 ==>
        mockData.Some? && sent == old(sent) + [BuildSubmission(mockData.value.questions, answers)] &&
        result == Some(grader(BuildSubmission(mockData.value.questions, answers)))
      ensures !(started && timeLeft == 0) ==> sent == old(sent) && result == old(result)
    {
      if started && timeLeft == 0 {
        Submit();
      }
    }

    /** The Start button. A countdown that is already 0 submits at once. */
    method Start()
      requires Valid() && ShowsStart()
      modifies this`started, this`result, this`sent
      ensures Valid() && started
      ensures timeLeft == 0 ==> sent == old(sent) + [BuildSubmission(mockData.value.questions, answers)]
      ensures timeLeft == 0 ==> result == Some(grader(BuildSubmission(mockData.value.questions, answers)))
      ensures timeLeft != 0 ==> sent == old(sent) && result == old(result)
    {
      started := true;
      TimerEffect();
    }

    /** One second of the interval. The interval exists only while the
        exam is started and the countdown is positive; reaching 0 submits
        without any user action, whether or not a result already exists. */
    method Tick()
      requires Valid()
      modifies this`timeLeft, this`result, this`sent
      ensures Valid()
      ensures old(started && timeLeft > 0) ==> timeLeft == old(timeLeft) - 1
      ensures !old(started && timeLeft > 0) ==> timeLeft == old(timeLeft) && sent == old(sent) && result == old(result)
      ensures old(timeLeft) >= 0 ==> timeLeft >= 0
      ensures old(started && timeLeft == 1) ==>
        mockData.Some? && sent == old(sent) + [BuildSubmission(mockData.value.questions, answers)] &&
        result == Some(grader(BuildSubmission(mockData.value.questions, answers)))
      ensures old(started) && timeLeft != 0 ==> sent == old(sent) && result == old(result)
    {
      if started && timeLeft > 0 {
        timeLeft := timeLeft - 1;
        TimerEffect();
      }
    }
  }

  /** The page asks for a grade before anything else. */
  predicate ShowsGradePrompt(grade: Option<string>) {
    grade.None? || grade.value == ""
  }

  /** A test of `minutes` minutes: the user submits by hand right after
      starting, and the countdown, which keeps running, submits again when
      it reaches 0, so two grading requests go out. */
  method ManualSubmitThenTimeout(grader: seq<AnswerItem> -> Score, data: MockData, minutes: int)
    returns (requests: seq<seq<AnswerItem>>, secondsWaited: nat)
    requires minutes >= 1
    ensures |requests| == 2
    ensures requests[0] == requests[1] == BuildSubmission(data.questions, map[])
    ensures secondsWaited == minutes * 60
  {
    var page := new Session(grader);
    page.SetDuration(minutes);
    page.Generate(data);
    page.Start();
    page.Submit();
    secondsWaited := 0;
    while page.timeLeft > 0
      invariant page.Valid() && page.started && page.mockData == Some(data) && page.answers == map[]
      invariant page.timeLeft + secondsWaited == minutes * 60
      invariant page.timeLeft >= 0
      invariant page.timeLeft > 0 ==> page.sent == [BuildSubmission(data.questions, map[])]
      invariant page.timeLeft == 0 ==> page.sent == [BuildSubmission(data.questions, map[])] + [BuildSubmission(data.questions, map[])]
      decreases page.timeLeft
    {
      page.Tick();
      secondsWaited := secondsWaited + 1;
    }
    requests := page.sent;
  }

  /** A test of 0 minutes submits as soon as it is started. */
  method ZeroDurationSubmitsOnStart(grader: seq<AnswerItem> -> Score, data: MockData)
    returns (requests: seq<seq<AnswerItem>>, graded: Option<Score>)
    ensures requests == [BuildSubmission(data.questions, map[])]
    ensures graded == Some(grader(BuildSubmission(data.questions, map[])))
  {
    var page := new Session(grader);
    page.SetDuration(0);
    page.Generate(data);
    page.Start();
    requests, graded := page.sent, page.result;
  }
}
