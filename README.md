# Olympiad AI learning hub — a verified model of its core

The system is a study assistant for school olympiads. A React front end
lets a student:

- pick a grade, subject and chapter;
- chat with a tutor;
- take a timed mock exam;
- download a study plan as a PDF.

A FastAPI back end answers from lesson passages stored in a vector
database. It uses a language model for explanations, mock exams, study
plans and question papers.

This project models the parts of that system that are plain sequential
logic and proves what they promise. Every page and service below is one
Dafny module.

- **Mock exam page** (`MockPage`), a class `Session`. It holds:
  - the loaded exam;
  - the map of chosen answers;
  - the countdown in seconds;
  - the `started` flag;
  - the graded result;
  - every grading request sent.

  One second of the interval timer is an explicit `Tick`. The timer
  effect's "submit at 0" branch runs after every change of `started` or of
  the countdown.
- **Chat page** (`ChatPage`), a class `Chat`. It holds the message list,
  the requests sent to `/ask/` and the navigations made. A keyword rule
  sends a question to one of three places: the mock page, the
  question-paper page, or a normal answer.
- **Home page** (`HomePage`), classes `Home` and `Dropdown`. Three cascading
  dropdowns, where the grade is offered as a "Grade g" label that is
  cleaned again before it leaves the page.
- **Study-plan page** (`PlannerPage`):
  - JavaScript `parseInt`;
  - the field guard of `generatePlan`;
  - the integer bookkeeping of `downloadPDF`: where each line of the PDF
    lands (cursor `y`, page number).
- **Answer component** (`StructuredResponse`): either a counted list view
  or a text view. No page of the front end mounts it.
- **`/ask/` endpoint** (`AskEndpoint`):
  - the `Example:` list extractor, as a loop method and as a function;
  - the collection name and the search limit;
  - the 404;
  - the list reply and the explanation reply, with the failures of
    `generate_answer`.
- **How the reply would be read** (`AskWiring`): how the chat page reads
  the `/ask/` reply, and how `StructuredResponse` would render it.
- **Back-end services**, each as a function of the language model's
  outcome, which is a parameter:
  - the concept chunker (`Chunking`);
  - the deterministic day planner (`DeterministicPlanner`, a loop method);
  - the fixed-bank mock generator (`DeterministicMockEngine`, with an
    in-place shuffle);
  - the JSON extraction and error mapping of the question-paper generator
    (`QuestionPaperEngine`) and of the modifier
    (`QuestionPaperModifyEngine`);
  - the code-fence stripping of the mock and plan generators
    (`MockEngine`, `PlannerEngine`, `Gemini`).
- **Shared text helpers** (`Text`). Python and JavaScript whitespace are
  kept apart, as are Python and JavaScript remainder rules.

Python `strip()` and `\s` use Python's `str.isspace` set; JavaScript
`trim()` uses ECMAScript's WhiteSpace and LineTerminator set. Letter case
is ASCII only.

## Model

| member | source | states |
|---|---|---|
| Text.Strip | olympiad-ai-engine/app/main.py:79 | the result is the slice left after the leading and trailing whitespace of the runtime; it neither starts nor ends with whitespace |
| Text.StripIdempotent | olympiad-ai-engine/app/services/chunking.py:5 | stripping a stripped text changes nothing |
| Text.Capitalize | olympiad-ai-engine/app/main.py:79 | first character upper case, every other character lower case, same length |
| Text.CapitalizeIdempotent | olympiad-ai-engine/app/main.py:79 | capitalising twice is capitalising once |
| Text.DecimalRoundTrip | fronte/src/pages/MockPage.jsx:168 | reading back the decimal rendering of a number gives the number |
| Text.IntToString | fronte/src/pages/MockPage.jsx:168 | a negative number is a minus sign followed by the digits of its magnitude |
| Text.ReplaceFirst | fronte/src/pages/HomePage.jsx:118 | a string pattern replaces only its first occurrence; without one the text is unchanged |
| Text.Join | olympiad-ai-engine/app/main.py:115 | no parts give ""; otherwise the first part is a prefix and the last a suffix of the joined text |
| Text.JoinAppend | olympiad-ai-engine/app/main.py:115 | joining two non-empty lists is joining each and putting one separator between them, so every pair of neighbours is separated by `sep` |
| Text.JsRem | fronte/src/pages/MockPage.jsx:168 | JavaScript `%` truncates: the sign follows the dividend, the magnitude is below the divisor's, and the dividend minus the result is a multiple of the divisor, which together fix the truncating remainder |
| Text.PadStart | fronte/src/pages/MockPage.jsx:168 | pads on the left to the target length and keeps a text already that long |
| MockPage.BuildSubmission | fronte/src/pages/MockPage.jsx:72-78 | one entry per loaded question, in order: its id, the stored answer or "", its correct answer |
| MockPage.SelectChangesOnlyItsEntries | fronte/src/pages/MockPage.jsx:62-67 | a new answer for one question changes only that question's entries of the submission |
| MockPage.SubmissionExample | fronte/src/pages/MockPage.jsx:72-78 | an unanswered question is submitted with "" |
| MockPage.TimeDisplay | fronte/src/pages/MockPage.jsx:166-168 | the minutes shown are the whole minutes of the countdown |
| MockPage.TimeDisplayRoundTrip | fronte/src/pages/MockPage.jsx:166-168 | the seconds are two digits and minutes × 60 + seconds is the countdown |
| MockPage.Session.constructor | fronte/src/pages/MockPage.jsx:9-17 | a fresh page: 15 minutes, nothing loaded, countdown 0, not started, no result |
| MockPage.Session.SetDuration | fronte/src/pages/MockPage.jsx:133-137 | the duration field takes the typed number |
| MockPage.Session.Generate | fronte/src/pages/MockPage.jsx:54-57 | stores the reply and sets the countdown from the page's duration, not from the reply |
| MockPage.Session.Select | fronte/src/pages/MockPage.jsx:62-67 | overwrites the answer for that id and keeps every other answer |
| MockPage.Session.Submit | fronte/src/pages/MockPage.jsx:70-91 | sends the submission and stores the grade; countdown, `started` and answers untouched |
| MockPage.Session.TimerEffect | fronte/src/pages/MockPage.jsx:28-30 | submits exactly when started with the countdown at 0, otherwise does nothing |
| MockPage.Session.Start | fronte/src/pages/MockPage.jsx:152-155 | starts the exam; a countdown already at 0 submits at once |
| MockPage.Session.Tick | fronte/src/pages/MockPage.jsx:20-26 | only while started with time left: the countdown drops by one and never goes below 0; reaching 0 sends the submission and stores its grade; otherwise nothing is sent and the result stays |
| MockPage.ManualSubmitThenTimeout | fronte/src/pages/MockPage.jsx:20-32 | a manual submit does not stop the countdown, so a second identical request goes out after minutes × 60 ticks |
| MockPage.ZeroDurationSubmitsOnStart | fronte/src/pages/MockPage.jsx:28-30 | a zero-minute exam is graded as soon as it starts |
| ChatPage.OrElse | fronte/src/pages/ChatPage.jsx:89-90 | `value || fallback`: the value when present and non-empty, else the fallback |
| ChatPage.QuestionPaperIsNeverMock | fronte/src/pages/ChatPage.jsx:51-75 | a text mentioning "question paper" mentions "paper", so never takes the mock path |
| ChatPage.ClassifyMeaning | fronte/src/pages/ChatPage.jsx:36-84 | each of the four paths is taken exactly when its keyword rule holds |
| ChatPage.BotMessage | fronte/src/pages/ChatPage.jsx:87-92 | kind is `type` or "text"; text is `answer`, else `message`, else "No response"; a download link only when non-empty |
| ChatPage.Chat.constructor | fronte/src/pages/ChatPage.jsx:9-11 | keeps the grade, subject and chapter it was opened with; empty question, no messages, not loading, nothing sent |
| ChatPage.Chat.Type | fronte/src/pages/ChatPage.jsx:9 | the input field takes the typed text |
| ChatPage.Chat.Ask | fronte/src/pages/ChatPage.jsx:34-111 | blank: nothing changes; otherwise the user message comes first and loading ends false; mock path: navigation only; other paths: one request; failure: one "Something went wrong."; question paper: navigation and no bot message; otherwise exactly one bot message |
| ChatPage.Chat.Follow | fronte/src/pages/ChatPage.jsx:40-110 | the same effects, once the question's path is known |
| ChatPage.AskTwice | fronte/src/pages/ChatPage.jsx:45 | after two asks: two blank questions leave the history empty; a non-blank first question is its first message; never more than four messages |
| HomePage.GradeLabel | fronte/src/pages/HomePage.jsx:213 | the label is "Grade " followed by the grade |
| HomePage.CleanGrade | fronte/src/pages/HomePage.jsx:118 | a text starting with "Grade " loses that prefix; a text without "Grade " is unchanged |
| HomePage.CleanGradeOfLabel | fronte/src/pages/HomePage.jsx:118 | cleaning a label gives back the grade, whatever its text |
| HomePage.GradeOptions | fronte/src/pages/HomePage.jsx:213 | one label per catalogue grade, in order |
| HomePage.GradeOptionsRoundTrip | fronte/src/pages/HomePage.jsx:151 | cleaning any option gives back its catalogue grade |
| HomePage.Dropdown.ShowsList | fronte/src/pages/HomePage.jsx:45 | a disabled dropdown never shows its list |
| HomePage.Dropdown.Click | fronte/src/pages/HomePage.jsx:33-34 | the button toggles the list unless disabled |
| HomePage.Dropdown.Pick | fronte/src/pages/HomePage.jsx:64-67 | picking an option closes the list |
| HomePage.Home.constructor | fronte/src/pages/HomePage.jsx:88-94 | no grade, subject or chapter chosen, nothing loaded, every dropdown closed |
| HomePage.Home.GradesLoaded | fronte/src/pages/HomePage.jsx:102-103 | the grade list becomes the catalogue's reply |
| HomePage.Home.SubjectsLoaded | fronte/src/pages/HomePage.jsx:119-120 | the subject list becomes the catalogue's reply |
| HomePage.Home.ChaptersLoaded | fronte/src/pages/HomePage.jsx:136-139 | the chapter list becomes the catalogue's reply |
| HomePage.Home.SubjectLookup | fronte/src/pages/HomePage.jsx:113-119 | no subject lookup without a grade; otherwise it uses the cleaned grade |
| HomePage.Home.ChapterLookup | fronte/src/pages/HomePage.jsx:130-137 | no chapter lookup unless both grade and subject are set |
| HomePage.Home.PickGrade | fronte/src/pages/HomePage.jsx:208-213 | sets the grade label, clears subject and chapter, keeps the loaded lists |
| HomePage.Home.PickSubject | fronte/src/pages/HomePage.jsx:219-224 | sets the subject, clears the chapter, keeps the grade |
| HomePage.Home.PickChapter | fronte/src/pages/HomePage.jsx:229-232 | changes only the chapter |
| HomePage.Home.OpenChat | fronte/src/pages/HomePage.jsx:148-155 | carries the cleaned grade, the subject, and the chapter or null |
| HomePage.ChooseAndOpen | fronte/src/pages/HomePage.jsx:148-155 | choosing a grade and a subject and opening the chat sends the catalogue's own grade and no chapter |
| PlannerPage.DigitRun | fronte/src/pages/PlannerPage.jsx:80 | the longest prefix made of digits |
| PlannerPage.ParseIntOfDecimal | fronte/src/pages/PlannerPage.jsx:80-83 | `parseInt` of a rendered integer gives the integer back |
| PlannerPage.NumberDaysParse | fronte/src/pages/PlannerPage.jsx:83 | the untouched days field (a number) is sent as that number |
| PlannerPage.LayoutShape | fronte/src/pages/PlannerPage.jsx:99-138 | every PDF line is below the top margin, headings at most 270, topics at most 280; pages run 1, 2, … without gaps; pages = 1 + page breaks |
| PlannerPage.Header | fronte/src/pages/PlannerPage.jsx:102-111 | four header lines; the cursor ends at 52 on page 1 |
| PlannerPage.BreakIfBelow | fronte/src/pages/PlannerPage.jsx:115-118 | past the limit the cursor returns to 20 on a new page; otherwise nothing changes |
| PlannerPage.DayWithoutBreak | fronte/src/pages/PlannerPage.jsx:113-137 | a day that fits moves the cursor down by 7 + 7 + 6 per topic + 4 and adds no page |
| PlannerPage.Planner.constructor | fronte/src/pages/PlannerPage.jsx:8-18 | empty fields, 7 days, no plan |
| PlannerPage.Planner.SetGrade | fronte/src/pages/PlannerPage.jsx:153-155 | the grade field takes the chosen value; nothing else changes |
| PlannerPage.Planner.SetSubject | fronte/src/pages/PlannerPage.jsx:164-166 | the subject field takes the chosen value; nothing else changes |
| PlannerPage.Planner.SetChapter | fronte/src/pages/PlannerPage.jsx:175-177 | the chapter field takes the chosen value; nothing else changes |
| PlannerPage.Planner.SetDays | fronte/src/pages/PlannerPage.jsx:186-192 | the days field holds the typed text from then on; an emptied field fails the guard of `generatePlan` |
| PlannerPage.Planner.GeneratePlan | fronte/src/pages/PlannerPage.jsx:69-94 | with a field missing: one alert and no request; otherwise one request with grade and days parsed; the plan replaced only on success; loading false on both paths |
| PlannerPage.Planner.Send | fronte/src/pages/PlannerPage.jsx:76-93 | the request, then the plan or the failure alert; loading ends false |
| PlannerPage.Planner.DownloadPdf | fronte/src/pages/PlannerPage.jsx:97-138 | nothing without a plan; otherwise the cursor loop places every line where the layout specification says |
| StructuredResponse.TrimPeriod | fronte/src/components/chat/StructuredResponse.jsx:21 | removes one trailing period and nothing else |
| StructuredResponse.TrimPeriodRemovesOne | fronte/src/components/chat/StructuredResponse.jsx:21 | of two trailing periods only one goes |
| StructuredResponse.ShownItem | fronte/src/components/chat/StructuredResponse.jsx:21 | strings lose at most a trailing period; other values are unchanged |
| StructuredResponse.Render | fronte/src/components/chat/StructuredResponse.jsx:1-35 | nothing for no response; the list view exactly for a "list" answer with an array; one shown item per element; count if truthy else the length; text is answer, else explanation, else "No answer available" |
| StructuredResponse.TextViewNeverEmpty | fronte/src/components/chat/StructuredResponse.jsx:32 | the text view never shows an empty text |
| StructuredResponse.ListCountMatchesItems | fronte/src/components/chat/StructuredResponse.jsx:10 | a count equal to the number of items is shown as that number, also for zero items |
| AskEndpoint.CaptureAt | olympiad-ai-engine/app/main.py:72 | the group starts after "Example:" and all whitespace after it, and runs to the end of that line |
| AskEndpoint.CapturesFrom | olympiad-ai-engine/app/main.py:72-73 | every match is well formed and later than the previous one; none exactly when "Example:" does not occur |
| AskEndpoint.CapturesAreAllMatches | olympiad-ai-engine/app/main.py:72-73 | no match is missed: the first match is at the first "Example:", each later one at the first "Example:" after the previous match ends, and none follows the last |
| AskEndpoint.ExampleMatches | olympiad-ai-engine/app/main.py:72-73 | one captured text per match, in order, each the group of that match; none for a text without "Example:" |
| AskEndpoint.SplitComma | olympiad-ai-engine/app/main.py:77 | at least one part, none containing a comma |
| AskEndpoint.SplitCommaJoin | olympiad-ai-engine/app/main.py:77 | joining the parts with "," gives back the text |
| AskEndpoint.CleanAll | olympiad-ai-engine/app/main.py:78-79 | each part stripped and capitalised, in order |
| AskEndpoint.DedupContents | olympiad-ai-engine/app/main.py:80-81 | the kept items are exactly the non-empty candidates, with no duplicate |
| AskEndpoint.DedupKeepsFirstOccurrenceOrder | olympiad-ai-engine/app/main.py:80-81 | the kept items are in the order of their first occurrence |
| AskEndpoint.CandidatesAreClean | olympiad-ai-engine/app/main.py:79 | every candidate is capitalised and has no whitespace at either end |
| AskEndpoint.ExtractedItemsShape | olympiad-ai-engine/app/main.py:71-83 | no empty item, no duplicate, every item clean |
| AskEndpoint.AddCleanedParts | olympiad-ai-engine/app/main.py:77-81 | the inner loop adds the new cleaned parts, keeping first occurrences only |
| AskEndpoint.ExtractList | olympiad-ai-engine/app/main.py:71-83 | the loop returns the items of the specification |
| AskEndpoint.CollectionName | olympiad-ai-engine/app/main.py:93 | the collection name starts with "olympiad_" |
| AskEndpoint.CollectionNamesDistinct | olympiad-ai-engine/app/main.py:93 | two questions share a collection only when they have the same grade and the same subject |
| AskEndpoint.SearchFor | olympiad-ai-engine/app/main.py:99-109 | limit 1 exactly for a list query, 3 otherwise; the collection and chapter of the request |
| AskEndpoint.GenerateAnswer | olympiad-ai-engine/app/services/qa_engine.py:5-32 | a missing key raises "GEMINI_API_KEY not found. Check your .env file."; the call's exceptions pass through; otherwise the reply's text, which may be `None` |
| AskEndpoint.Ask | olympiad-ai-engine/app/main.py:90-135 | 404 "Not available in the lesson." exactly when the search is empty; a list query answers "list" with the extracted items and their count and needs no key; any other answers "explanation" with the model's text (`null` when the reply has none), or 500 when `generate_answer` raises |
| AskWiring.AsStructured | olympiad-ai-engine/app/main.py:36-41 | the reply as `StructuredResponse` would read it: no `answer` field, the other fields copied |
| AskWiring.ListAnswerShown | olympiad-ai-engine/app/main.py:118-126 | `StructuredResponse` would render a list answer as its items, each less a trailing period, under a count equal to their number |
| AskWiring.ExplanationShown | olympiad-ai-engine/app/main.py:128-135 | `StructuredResponse` would render an explanation as its text, or "No answer available" when the text is `null` or empty |
| AskWiring.ChatShowsNoResponse | fronte/src/pages/ChatPage.jsx:87-92 | the chat page shows "No response" of kind "text" for every `/ask/` reply |
| Chunking.MarkerLength | olympiad-ai-engine/app/services/chunking.py:4 | a heading found is "Concept ", one or more digits, ":" |
| Chunking.MarkerLengthExact | olympiad-ai-engine/app/services/chunking.py:4 | a heading at a position is matched there, with its whole length |
| Chunking.NextMarker | olympiad-ai-engine/app/services/chunking.py:4 | the next heading, with none before it |
| Chunking.SplitFrom | olympiad-ai-engine/app/services/chunking.py:4 | one more piece than headings; every cut-out part is a heading |
| Chunking.PiecesHaveNoMarker | olympiad-ai-engine/app/services/chunking.py:4 | no piece holds a heading |
| Chunking.SplitWeave | olympiad-ai-engine/app/services/chunking.py:4 | putting the headings back between the pieces gives the text |
| Chunking.Kept | olympiad-ai-engine/app/services/chunking.py:5 | every kept element is longer than 200 characters, and there are no more of them than pieces |
| Chunking.KeptMembers | olympiad-ai-engine/app/services/chunking.py:5 | a text is kept exactly when it is the strip of some piece and longer than 200 characters |
| Chunking.ConceptsShape | olympiad-ai-engine/app/services/chunking.py:3-6 | every concept is longer than 200, already stripped and holds no heading |
| Chunking.WithoutMarker | olympiad-ai-engine/app/services/chunking.py:4-5 | a text without a heading gives its strip if longer than 200, else nothing |
| Chunking.KeptAppend | olympiad-ai-engine/app/services/chunking.py:5 | the filter keeps order: kept(a + b) = kept(a) + kept(b) |
| Chunking.SplitIntoConcepts | olympiad-ai-engine/app/services/chunking.py:3-6 | every concept is longer than 200 characters; `ConceptsShape`, `WithoutMarker` and `HeadingSplitsConcepts` state the rest |
| Chunking.HeadingSplitsConcepts | olympiad-ai-engine/app/services/chunking.py:4-5 | the first heading cuts the concepts into those before it followed by those after it |
| DeterministicPlanner.TaskFor | olympiad-ai-engine/app/services/deterministic_planner.py:7-12 | revision exactly on multiples of 7, mock practice on other multiples of 5, study otherwise |
| DeterministicPlanner.Entries | olympiad-ai-engine/app/services/deterministic_planner.py:5-18 | n entries, none for n ≤ 0; entry k is day k + 1 |
| DeterministicPlanner.GenerateFallbackPlan | olympiad-ai-engine/app/services/deterministic_planner.py:1-24 | the loop builds the plan of the specification and echoes duration and chapter |
| DeterministicPlanner.SectionNumber | olympiad-ai-engine/app/services/deterministic_planner.py:16 | the topics end with the day's number |
| DeterministicPlanner.DaysAndSections | olympiad-ai-engine/app/services/deterministic_planner.py:14-18 | days are 1 to n in order, and no two days share a section |
| DeterministicPlanner.MultipleOf35 | olympiad-ai-engine/app/services/deterministic_planner.py:7-10 | a day is a multiple of 35 exactly when it is one of 5 and of 7 |
| DeterministicPlanner.MultiplesIsQuotient | olympiad-ai-engine/app/services/deterministic_planner.py:5 | the multiples of d among 1..n number n / d |
| DeterministicPlanner.DayCounts | olympiad-ai-engine/app/services/deterministic_planner.py:5-12 | n/7 revision days, n/5 − n/35 mock days, the rest study days |
| DeterministicPlanner.Day35IsRevision | olympiad-ai-engine/app/services/deterministic_planner.py:7-8 | day 35 is a revision day |
| DeterministicMockEngine.BankAnswerable | olympiad-ai-engine/app/services/deterministic_mock_engine.py:5-36 | every correct answer is one of its question's options; ids are 1 to 5 |
| DeterministicMockEngine.BankIdsDistinct | olympiad-ai-engine/app/services/deterministic_mock_engine.py:5-36 | no two bank questions share an id |
| DeterministicMockEngine.Bank | olympiad-ai-engine/app/services/deterministic_mock_engine.py:5-36 | the fixed bank holds five questions |
| DeterministicMockEngine.Shuffle | olympiad-ai-engine/app/services/deterministic_mock_engine.py:38 | the shuffle rearranges the questions in place, for every random choice |
| DeterministicMockEngine.RearrangedBank | olympiad-ai-engine/app/services/deterministic_mock_engine.py:38-44 | any rearrangement keeps five answerable questions with distinct ids |
| DeterministicMockEngine.GenerateMockExam | olympiad-ai-engine/app/services/deterministic_mock_engine.py:3-45 | intent "mock_exam", the chapter given, 15 minutes, a permutation of the five bank questions, whatever the context |
| Gemini.Unfence | olympiad-ai-engine/app/services/mock_engine.py:50-54 | unfenced text is its strip; for fenced text, the piece right after the opening fence that holds no fence and ends at the next fence or at the end |
| Gemini.UnfenceKeepsTag | olympiad-ai-engine/app/services/mock_engine.py:53-54 | an example: a fenced block loses its fences and keeps its language tag |
| Gemini.GenerateText | olympiad-ai-engine/app/services/mock_engine.py:6-56 | the given message without a key; a call's exception passes through; a missing text fails; success exactly for a reply with text, which comes back stripped and unfenced |
| Gemini.FencedReply | olympiad-ai-engine/app/services/planner_engine.py:44-49 | a "```json" reply comes back as "json", newline, body, newline |
| MockEngine.GenerateMockExam | olympiad-ai-engine/app/services/mock_engine.py:4-56 | "GEMINI_API_KEY not found" without a key; success exactly for a reply with text, which comes back unfenced |
| PlannerEngine.GenerateLlmPlan | olympiad-ai-engine/app/services/planner_engine.py:6-49 | "No API key found" without a key; success exactly for a reply with text, which comes back unfenced |
| QuestionPaperEngine.Truncate | olympiad-ai-engine/app/services/question_paper_engine.py:24 | the first 4000 characters, or the whole context |
| QuestionPaperEngine.JsonSpan | olympiad-ai-engine/app/services/question_paper_engine.py:87-91 | from the first "{" to the last "}"; none exactly when no "{" precedes a "}" |
| QuestionPaperEngine.GenerateQuestionPaper | olympiad-ai-engine/app/services/question_paper_engine.py:19-100 | "API key not configured." without a key; "Gemini quota exceeded" for a client error; every other failure "Failed to generate question paper."; success exactly when the span parses |
| QuestionPaperEngine.SpanText | olympiad-ai-engine/app/services/question_paper_engine.py:91 | the span's text starts with "{" and ends with "}" |
| QuestionPaperEngine.SpanOfWrappedObject | olympiad-ai-engine/app/services/question_paper_engine.py:84-91 | an object with brace-free text around it is extracted whole |
| QuestionPaperModifyEngine.Find | olympiad-ai-engine/app/services/question_paper_modify_engine.py:53 | −1 exactly when absent, else the lowest index where it occurs |
| QuestionPaperModifyEngine.RFind | olympiad-ai-engine/app/services/question_paper_modify_engine.py:54 | the last occurrence, or −1 |
| QuestionPaperModifyEngine.SliceBound | olympiad-ai-engine/app/services/question_paper_modify_engine.py:55 | Python's slice bound: negatives count from the end, then clamped |
| QuestionPaperModifyEngine.PySlice | olympiad-ai-engine/app/services/question_paper_modify_engine.py:55 | the text between the two normalised bounds, or "" when they cross |
| QuestionPaperModifyEngine.CleanJsonAgreesWithSpan | olympiad-ai-engine/app/services/question_paper_modify_engine.py:53-55 | when a "{" precedes the last "}" the slice is the generator's span |
| QuestionPaperModifyEngine.CleanJsonWithoutClose | olympiad-ai-engine/app/services/question_paper_modify_engine.py:54-55 | without "}" the slice is empty |
| QuestionPaperModifyEngine.RegenerateWithModifications | olympiad-ai-engine/app/services/question_paper_modify_engine.py:13-64 | "API key not configured." without a key; "Gemini quota exceeded." for a client error; every other failure "Failed to modify question paper." |
| QuestionPaperModifyEngine.NoCloseBraceFails | olympiad-ai-engine/app/services/question_paper_modify_engine.py:54-57 | a reply without "}" always fails |

## Left out

- `StructuredResponse` is mounted by no page: the chat page builds its own bot message. The `AskWiring` lemmas about it say how it would render a reply, not what a student sees.
- The query embedding (`generate_embedding`) is not modelled; the search is a function of the collection, chapter and limit only.
- The language model and the vector database are parameters.
  - A call's outcome is `Call`: an exception, or a reply whose text may be `None`.
  - The search is a function from the search request to passage texts.
  - `json.loads` is a function.
  - An exception that `ask_question` does not catch becomes FastAPI's 500 reply; its body is not modelled beyond "Internal Server Error".

  The prompts are not modelled.
- The question-paper generator computes `context[:4000]` and then drops it: no prompt holds the context. Since the prompts are not modelled, `QuestionPaperEngine.GenerateQuestionPaper` only computes the truncation, and nothing is proved about the context.
- Creating the client (`genai.Client(...)` at question_paper_engine.py:26 and question_paper_modify_engine.py:18) is not modelled. It happens before the `try`, so whatever it raises escapes unmapped; the error mapping modelled holds only inside the `try`. question_paper_modify_engine.py:3-4 imports `genai` twice, and the second import, `google.generativeai`, is the one in effect.
- The network calls, `alert`, `navigate` and `window.open` are recorded as values in the classes' lists.
  - `fetch` failures are the `Failed` or `None` outcomes.
  - The mock page's generate and submit have no error handling in the code, so they have no failure path here.
- Real time and asynchronous interleaving are not modelled.
  - The interval is a `Tick` operation.
  - Each handler runs to completion.
  - `loading` is set and cleared within one handler.
  - The "Generating..." label is not modelled.
- The jsPDF drawing calls, fonts and the file download are not modelled; only where each line lands (`y`, page) is.
- `MockPage.Session.SetDuration` takes an integer: a `parseInt` that yields NaN is not modelled.
- `PlannerPage.ParseDays`: the untouched days field is the number 7. It is read as the number, and `NumberDaysParse` proves that this agrees with `parseInt` of its rendering.
- Letter case is ASCII only: `lower()`, `toLowerCase()` and `capitalize()` leave other characters alone. `\d` in the chunker is ASCII digits only.
- `DeterministicMockEngine.Shuffle` proves a permutation for every random choice; the distribution of `random.shuffle` is not modelled.
- The click-outside listener of the dropdowns, the auto-scroll of the chat and all animation are left out.
- The ingestion scripts, the PDF loaders, the ReportLab generators, the routers and the duplicate chat component are not part of this model.
- The question-paper setup and preview pages are not part of this model.
- `PlannerPage.Planner.DownloadPdf` reads each day's `topics` as a list. The deterministic planner's `topics` is a string, which the page does not handle; that mismatch is not modelled.
- The chat page reads `type`, `answer`, `message` and `download_url`, while `/ask/` replies with `answer_type`, `data` and `explanation`. This is stated as `AskWiring.ChatShowsNoResponse`, not corrected.
