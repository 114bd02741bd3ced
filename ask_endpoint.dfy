/** The back end's `/ask/` endpoint and its list extractor (`main.py`).

    A question mentioning "list" searches one passage and answers with the
    items found after "Example:" in it; any other question searches three
    passages and answers with the language model's explanation. The vector
    search and the language model are parameters. */
module AskEndpoint {
  import opened Text
  import Gemini

  // ---------------------------------------------------------------
  // `re.findall(r'Example:\s*(.*)', text)`
  // ---------------------------------------------------------------

  const Marker := "Example:"

  /** Index of the first line break at or after `from`, or the end. */
  function LineEnd(text: string, from: nat): (k: nat)
    requires from <= |text|
    decreases |text| - from
    ensures from <= k <= |text|
    ensures forall m :: from <= m < k ==> text[m] != '\n'
    ensures k < |text| ==> text[k] == '\n'
  {
    if from == |text| || text[from] == '\n' then from else LineEnd(text, from + 1)
  }

  /** One match: where "Example:" was found, and where the captured
      group starts and ends. */
  datatype Capture = Capture(at: nat, start: nat, end: nat)

  /** A well-formed match: "Example:" at `at`, then the whole run of
      whitespace after it (line breaks included), then the rest of that
      line up to a line break or the end of the text. */
  ghost predicate IsCapture(text: string, c: Capture) {
    && OccursAt(text, Marker, c.at)
    && c.at + |Marker| <= c.start <= c.end <= |text|
    && (forall m :: c.at + |Marker| <= m < c.start ==> IsSpace(text[m], Python))
    && (c.start < |text| ==> !IsSpace(text[c.start], Python))
    && (forall m :: c.start <= m < c.end ==> text[m] != '\n')
    && (c.end < |text| ==> text[c.end] == '\n')
  }

  /** The match that starts with the "Example:" found at `i`. */
  function CaptureAt(text: string, i: nat): (c: Capture)
    requires OccursAt(text, Marker, i)
    ensures IsCapture(text, c) && c.at == i
  {
    var rest := text[i + |Marker|..];
    var skip := LeadingSpace(rest, Python);
    var j := i + |Marker| + skip;
    assert forall m :: i + |Marker| <= m < j ==> text[m] == rest[m - i - |Marker|];
    assert j < |text| ==> text[j] == rest[skip];
    Capture(i, j, LineEnd(text, j))
  }

  /** All matches at or after `from`: the search resumes where the previous
      capture ended. */
  function CapturesFrom(text: string, from: nat): (cs: seq<Capture>)
    decreases |text| - from
    ensures forall n :: 0 <= n < |cs| ==> IsCapture(text, cs[n]) && from <= cs[n].at
    ensures forall n :: 0 < n < |cs| ==> cs[n - 1].end <= cs[n].at
    ensures cs == [] <==> IndexOf(text, Marker, from).None?
  {
    match IndexOf(text, Marker, from)
    case None => []
    case Some(i) =>
      var c := CaptureAt(text, i);
      var tail := CapturesFrom(text, c.end);
      var cs := [c] + tail;
      assert cs[0] == c;
      assert forall n :: 0 < n < |cs| ==> cs[n] == tail[n - 1];
      cs
  }

  /** `cs` is the chain of matches a left-to-right search finds from
      `from`: the first at the first "Example:" from `from`, each later one
      at the first after the previous one's end, none after the last. */
  ghost predicate Chained(text: string, from: nat, cs: seq<Capture>) {
    && (|cs| > 0 ==> Some(cs[0].at) == IndexOf(text, Marker, from))
    && (forall n :: 0 < n < |cs| ==> Some(cs[n].at) == IndexOf(text, Marker, cs[n - 1].end))
    && (|cs| > 0 ==> IndexOf(text, Marker, cs[|cs| - 1].end).None?)
  }

  /** `findall` misses no match: its captures are the whole chain. */
  lemma {:induction false} CapturesAreAllMatches(text: string, from: nat)
    decreases |text| - from
    ensures Chained(text, from, CapturesFrom(text, from))
  {
    if IndexOf(text, Marker, from).Some? {
      var c, tail := CapturesStep(text, from);
      CapturesAreAllMatches(text, c.end);
      ChainedCons(text, from, c, tail);
    }
  }

  lemma ChainedCons(text: string, from: nat, c: Capture, tail: seq<Capture>)
    requires Some(c.at) == IndexOf(text, Marker, from)
    requires Chained(text, c.end, tail)
    requires tail == [] ==> IndexOf(text, Marker, c.end).None?
    ensures Chained(text, from, [c] + tail)
  {
    var cs := [c] + tail;
    assert forall n :: 0 < n < |cs| ==> cs[n] == tail[n - 1];
    if |tail| > 0 {
      assert cs[|cs| - 1] == tail[|tail| - 1];
    }
  }

  /** One step of the search: the first match, then the matches after it. */
  lemma CapturesStep(text: string, from: nat) returns (c: Capture, tail: seq<Capture>)
    requires IndexOf(text, Marker, from).Some?
    ensures c == CaptureAt(text, IndexOf(text, Marker, from).value)
    ensures tail == CapturesFrom(text, c.end)
    ensures CapturesFrom(text, from) == [c] + tail
  {
    c := CaptureAt(text, IndexOf(text, Marker, from).value);
    tail := CapturesFrom(text, c.end);
  }

  /** The captured texts. */
  function Captured(text: string, cs: seq<Capture>): (r: seq<string>)
    requires forall n :: 0 <= n < |cs| ==> cs[n].start <= cs[n].end <= |text|
    ensures |r| == |cs|
    ensures forall n :: 0 <= n < |cs| ==> r[n] == text[cs[n].start..cs[n].end]
  {
    if |cs| == 0 then [] else [text[cs[0].start..cs[0].end]] + Captured(text, cs[1..])
  }

  /** `re.findall(r'Example:\s*(.*)', text)`. */
  function ExampleMatches(text: string): (r: seq<string>)
    ensures !Contains(text, Marker) ==> r == []
    ensures var cs := CapturesFrom(text, 0);
      |r| == |cs| && forall n :: 0 <= n < |cs| ==> r[n] == text[cs[n].start..cs[n].end]
  {
    var cs := CapturesFrom(text, 0);
    Captured(text, cs)
  }

  // ---------------------------------------------------------------
  // Splitting, cleaning and de-duplicating the items
  // ---------------------------------------------------------------

  /** `s.split(",")`: at least one part, none holding a comma. */
  function SplitComma(s: string): (parts: seq<string>)
    ensures |parts| >= 1
    ensures forall p :: p in parts ==> ',' !in p
  {
    if ',' !in s then [s]
    else
      var i := IndexOfComma(s);
      [s[..i]] + SplitComma(s[i + 1..])
  }

  /** Joining the parts with commas gives back the text. */
  lemma {:induction false} SplitCommaJoin(s: string)
    decreases |s|
    ensures Join(SplitComma(s), ",") == s
  {
    var parts := SplitComma(s);
    if ',' in s {
      var i := IndexOfComma(s);
      var rest := SplitComma(s[i + 1..]);
      assert parts == [s[..i]] + rest;
      SplitCommaJoin(s[i + 1..]);
      JoinCons(s[..i], rest, ",");
      CutAtComma(s, i);
    } else {
      assert parts == [s];
    }
  }

  lemma CutAtComma(s: string, i: nat)
    requires i < |s| && s[i] == ','
    ensures s[..i] + "," + s[i + 1..] == s
  {
    assert s[..i] + [s[i]] + s[i + 1..] == s;
  }

  function IndexOfComma(s: string): (i: nat)
    requires ',' in s
    ensures i < |s| && s[i] == ',' && ',' !in s[..i]
  {
    if s[0] == ',' then 0 else 1 + IndexOfComma(s[1..])
  }

  /** `item.strip().capitalize()`. */
  function Clean(part: string): string {
    Capitalize(Strip(part, Python))
  }

  function CleanAll(parts: seq<string>): (r: seq<string>)
    ensures |r| == |parts|
    ensures forall k :: 0 <= k < |parts| ==> r[k] == Clean(parts[k])
  {
    if |parts| == 0 then [] else CleanAll(parts[..|parts| - 1]) + [Clean(parts[|parts| - 1])]
  }

  /** The cleaned parts of all captures, in order. */
  function Candidates(matches: seq<string>): seq<string> {
    if |matches| == 0 then [] else Candidates(matches[..|matches| - 1]) + CleanAll(SplitComma(matches[|matches| - 1]))
  }

  /** `if cleaned and cleaned not in items: items.append(cleaned)`. */
  function AddItem(items: seq<string>, cleaned: string): seq<string> {
    if cleaned != "" && cleaned !in items then items + [cleaned] else items
  }

  /** The items kept from a list of candidates, first occurrence first. */
  function Dedup(cands: seq<string>): seq<string> {
    if |cands| == 0 then [] else AddItem(Dedup(cands[..|cands| - 1]), cands[|cands| - 1])
  }

  /** What `extract_list_from_context` returns. */
  function ExtractedItems(text: string): seq<string> {
    Dedup(Candidates(ExampleMatches(text)))
  }

  lemma DedupSnoc(cands: seq<string>, c: string)
    ensures Dedup(cands + [c]) == AddItem(Dedup(cands), c)
  {
    assert (cands + [c])[..|cands|] == cands;
  }

  lemma CleanAllSnoc(parts: seq<string>, j: nat)
    requires j < |parts|
    ensures CleanAll(parts[..j + 1]) == CleanAll(parts[..j]) + [Clean(parts[j])]
  {
    assert parts[..j + 1][..j] == parts[..j];
  }

  lemma CandidatesSnoc(matches: seq<string>, i: nat)
    requires i < |matches|
    ensures Candidates(matches[..i + 1]) == Candidates(matches[..i]) + CleanAll(SplitComma(matches[i]))
  {
    assert matches[..i + 1][..i] == matches[..i];
  }

  /** The kept items are exactly the non-empty candidates, each once. */
  lemma {:induction false} DedupContents(cands: seq<string>)
    ensures forall x :: x in Dedup(cands) <==> x in cands && x != ""
    ensures forall a, b :: 0 <= a < b < |Dedup(cands)| ==> Dedup(cands)[a] != Dedup(cands)[b]
  {
    if |cands| > 0 {
      var init := cands[..|cands| - 1];
      DedupContents(init);
      assert cands == init + [cands[|cands| - 1]];
    }
  }

  /** Index of the first occurrence of `x` in `s`. */
  function FirstIndex(s: seq<string>, x: string): (i: nat)
    requires x in s
    ensures i < |s| && s[i] == x && x !in s[..i]
  {
    if s[0] == x then 0 else 1 + FirstIndex(s[1..], x)
  }

  /** The kept items appear in the order of their first occurrence. */
  lemma {:induction false} DedupKeepsFirstOccurrenceOrder(cands: seq<string>, a: nat, b: nat)
    requires a < b < |Dedup(cands)|
    ensures Dedup(cands)[a] in cands && Dedup(cands)[b] in cands
    ensures FirstIndex(cands, Dedup(cands)[a]) < FirstIndex(cands, Dedup(cands)[b])
  {
    DedupContents(cands);
    var init := cands[..|cands| - 1];
    var last := cands[|cands| - 1];
    var d := Dedup(init);
    DedupContents(init);
    var x, y := Dedup(cands)[a], Dedup(cands)[b];
    if b < |d| {
      DedupKeepsFirstOccurrenceOrder(init, a, b);
      FirstIndexOfPrefix(init, last, x);
      FirstIndexOfPrefix(init, last, y);
    } else {
      assert y == last && y !in d && a < |d|;
      assert y !in init;
      FirstIndexOfPrefix(init, last, x);
      FirstIndexAtEnd(init, last);
    }
  }

  lemma FirstIndexOfPrefix(init: seq<string>, last: string, x: string)
    requires x in init
    ensures x in init + [last] && FirstIndex(init + [last], x) == FirstIndex(init, x)
  {
    var s := init + [last];
    var i := FirstIndex(init, x);
    assert s[i] == x;
    assert s[..i] == init[..i];
    FirstIndexUnique(s, x, i);
  }

  lemma FirstIndexAtEnd(init: seq<string>, last: string)
    requires last !in init
    ensures FirstIndex(init + [last], last) == |init|
  {
    var s := init + [last];
    assert s[..|init|] == init;
    FirstIndexUnique(s, last, |init|);
  }

  lemma {:induction false} FirstIndexUnique(s: seq<string>, x: string, i: nat)
    requires i < |s| && s[i] == x && x !in s[..i]
    ensures FirstIndex(s, x) == i
  {
    if i > 0 {
      assert s[0] != x by { assert s[0] == s[..i][0]; }
      assert s[1..][..i - 1] == s[..i][1..];
      FirstIndexUnique(s[1..], x, i - 1);
    }
  }

  /** Capitalised already, with no whitespace at either end. */
  predicate IsClean(x: string) {
    Capitalize(x) == x && (x != "" ==> !IsSpace(x[0], Python) && !IsSpace(x[|x| - 1], Python))
  }

  /** A cleaned part is clean: stripping then capitalising leaves no
      whitespace at either end, and capitalising it again changes nothing. */
  lemma CleanIsClean(part: string)
    ensures IsClean(Clean(part))
  {
    var stripped := Strip(part, Python);
    CapitalizeIdempotent(stripped);
    if stripped != "" {
      CaseKeepsSpace(stripped[0]);
      CaseKeepsSpace(stripped[|stripped| - 1]);
    }
  }

  /** Every candidate is clean. */
  lemma {:induction false} CandidatesAreClean(matches: seq<string>)
    ensures forall x :: x in Candidates(matches) ==> IsClean(x)
  {
    if |matches| > 0 {
      CandidatesAreClean(matches[..|matches| - 1]);
      var parts := SplitComma(matches[|matches| - 1]);
      var cleaned := CleanAll(parts);
      forall k | 0 <= k < |cleaned|
        ensures IsClean(cleaned[k])
      {
        CleanIsClean(parts[k]);
      }
    }
  }

  lemma CaseKeepsSpace(c: char)
    ensures IsSpace(UpperChar(c), Python) == IsSpace(c, Python)
    ensures IsSpace(LowerChar(c), Python) == IsSpace(c, Python)
  {
  }

  /** The extractor's guarantees: no empty item, no duplicate, every item
      cleaned. */
  lemma ExtractedItemsShape(text: string)
    ensures var items := ExtractedItems(text);
      (forall k :: 0 <= k < |items| ==> items[k] != "" && IsClean(items[k])) &&
      (forall a, b :: 0 <= a < b < |items| ==> items[a] != items[b])
  {
    var cands := Candidates(ExampleMatches(text));
    DedupContents(cands);
    CandidatesAreClean(ExampleMatches(text));
    var items := Dedup(cands);
    forall k | 0 <= k < |items|
      ensures items[k] != "" && IsClean(items[k])
    {
      assert items[k] in items;
    }
  }

  /** The inner loop of `extract_list_from_context`: the parts of one
      capture are cleaned and added in order. */
  method AddCleanedParts(items0: seq<string>, parts: seq<string>, ghost before: seq<string>)
    returns (items: seq<string>)
    requires items0 == Dedup(before)
    ensures items == Dedup(before + CleanAll(parts))
  {
    items := items0;
    var j := 0;
    assert before + CleanAll(parts[..0]) == before;
    while j < |parts|
      invariant 0 <= j <= |parts|
      invariant items == Dedup(before + CleanAll(parts[..j]))
    {
      var cleaned := Clean(parts[j]);
      ghost var done := before + CleanAll(parts[..j]);
      CleanAllSnoc(parts, j);
      assert before + CleanAll(parts[..j + 1]) == done + [cleaned];
      DedupSnoc(done, cleaned);
      if cleaned != "" && cleaned !in items {
        items := items + [cleaned];
      }
      j := j + 1;
    }
    assert parts[..|parts|] == parts;
  }

  /** `extract_list_from_context`: every capture, split at commas. */
  method ExtractList(text: string) returns (items: seq<string>)
    ensures items == ExtractedItems(text)
  {
    var matches := ExampleMatches(text);
    items := [];
    var i := 0;
    while i < |matches|
      invariant 0 <= i <= |matches|
      invariant items == Dedup(Candidates(matches[..i]))
    {
      items := AddCleanedParts(items, SplitComma(matches[i]), Candidates(matches[..i]));
      CandidatesSnoc(matches, i);
      i := i + 1;
    }
    assert matches[..|matches|] == matches;
  }

  // ---------------------------------------------------------------
  // `ask_question`
  // ---------------------------------------------------------------

  datatype AskRequest = AskRequest(question: string, grade: int, subject: string, chapterName: Option<string>)

  /** The vector search the endpoint makes; the query embedding is left out. */
  datatype Search = Search(collection: string, chapterName: Option<string>, limit: nat)

  datatype AskResponse = AskResponse(
    question: string,
    answerType: string,
    count: Option<int>,
    data: Option<seq<string>>,
    explanation: Option<string>)

  datatype HttpError = HttpError(status: int, detail: string)

  /** The collection `olympiad_{grade}_{subject}` a question searches. */
  function CollectionName(grade: int, subject: string): (name: string)
    ensures StartsWith(name, "olympiad_")
  {
    "olympiad_" + IntToString(grade) + "_" + subject
  }

  /** Different grade and subject pairs never share a collection: the
      grade's rendering holds no "_", so the first "_" after the prefix
      tells where it ends. */
  lemma CollectionNamesDistinct(g1: int, s1: string, g2: int, s2: string)
    ensures CollectionName(g1, s1) == CollectionName(g2, s2) ==> g1 == g2 && s1 == s2
  {
    ReadBack(g1, s1);
    ReadBack(g2, s2);
    if CollectionName(g1, s1) == CollectionName(g2, s2) {
      IntToStringInjective(g1, g2);
    }
  }

  /** The grade and subject can be read back from a collection name. */
  lemma ReadBack(g: int, subject: string)
    ensures var n, e := CollectionName(g, subject), 9 + |IntToString(g)|;
      && IndexOf(n, "_", 9) == Some(e)
      && n[9..e] == IntToString(g) && n[e + 1..] == subject
  {
    var a := IntToString(g);
    var n, e := CollectionName(g, subject), 9 + |a|;
    assert n == "olympiad_" + a + "_" + subject;
    assert forall k :: 0 <= k < |a| ==> n[9 + k] == a[k];
    NoUnderscore(g);
    assert forall k :: 9 <= k < e ==> !OccursAt(n, "_", k) by {
      forall k | 9 <= k < e ensures !OccursAt(n, "_", k) {
        assert n[k..k + 1][0] == a[k - 9];
      }
    }
    assert OccursAt(n, "_", e) by {
      assert n[e..e + 1][0] == '_';
    }
    IndexOfIs(n, "_", 9, e);
  }

  /** A rendered integer holds no "_". */
  lemma NoUnderscore(g: int)
    ensures forall k :: 0 <= k < |IntToString(g)| ==> IntToString(g)[k] != '_'
  {
    var r := IntToString(g);
    if g < 0 {
      assert forall k :: 1 <= k < |r| ==> r[k] == r[1..][k - 1];
    }
  }

  predicate IsListQuery(question: string) {
    Contains(Lower(question), "list")
  }

  function SearchFor(req: AskRequest): (s: Search)
    ensures s.collection == CollectionName(req.grade, req.subject) && s.chapterName == req.chapterName
    ensures s.limit == 1 <==> IsListQuery(req.question)
    ensures s.limit == 3 <==> !IsListQuery(req.question)
  {
    Search(CollectionName(req.grade, req.subject), req.chapterName, if IsListQuery(req.question) then 1 else 3)
  }

  /** What `"\n\n".join` puts between the passages found. */
  const Paragraph := "\n\n"

  /** FastAPI's reply to an exception the endpoint does not catch. */
  const ServerError := HttpError(500, "Internal Server Error")

  /** `generate_answer(context, question)` (`qa_engine.py`): a missing key
      raises `ValueError`; otherwise one call, whose exceptions are not
      caught and whose `response.text` may be `None`. */
  function GenerateAnswer(apiKey: Option<string>, call: Gemini.Call): (r: Result<Option<string>, Gemini.Failure>)
    ensures Gemini.KeyMissing(apiKey) ==> r == Err(Gemini.Message("GEMINI_API_KEY not found. Check your .env file."))
    ensures !Gemini.KeyMissing(apiKey) && call.Raised? ==> r == Err(Gemini.Propagated(call.error))
    ensures r.Ok? <==> !Gemini.KeyMissing(apiKey) && call.Reply?
    ensures r.Ok? ==> r.value == call.text
  {
    if Gemini.KeyMissing(apiKey) then Err(Gemini.Message("GEMINI_API_KEY not found. Check your .env file."))
    else
      match call
      case Raised(e) => Err(Gemini.Propagated(e))
      case Reply(text) => Ok(text)
  }

  /** `ask_question`: `search` gives the contents of the passages found and
      `answer(context, question)` the outcome of the model call that
      `generate_answer` makes. A list query never reaches the model, so it
      needs no key; a failure of `generate_answer` is a 500. */
  function Ask(req: AskRequest, search: Search -> seq<string>, apiKey: Option<string>,
               answer: (string, string) -> Gemini.Call): (r: Result<AskResponse, HttpError>)
    ensures search(SearchFor(req)) == [] <==> r == Err(HttpError(404, "Not available in the lesson."))
    ensures search(SearchFor(req)) != [] && IsListQuery(req.question) ==>
      var items := ExtractedItems(Join(search(SearchFor(req)), Paragraph));
      r == Ok(AskResponse(req.question, "list", Some(|items|), Some(items), None))
    ensures search(SearchFor(req)) != [] && !IsListQuery(req.question) ==>
      var g := GenerateAnswer(apiKey, answer(Join(search(SearchFor(req)), Paragraph), req.question));
      && (g.Err? ==> r == Err(ServerError))
      && (g.Ok? ==> r == Ok(AskResponse(req.question, "explanation", None, None, g.value)))
  {
    var results := search(SearchFor(req));
    if results == [] then Err(HttpError(404, "Not available in the lesson."))
    else
      var context := Join(results, Paragraph);
      if IsListQuery(req.question) then
        var items := ExtractedItems(context);
        Ok(AskResponse(req.question, "list", Some(|items|), Some(items), None))
      else
        match GenerateAnswer(apiKey, answer(context, req.question))
        case Err(_) => Err(ServerError)
        case Ok(text) => Ok(AskResponse(req.question, "explanation", None, None, text))
  }
}
