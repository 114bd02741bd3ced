/** `StructuredResponse`: how an answer from the back end is shown, either as
    a counted list of items or as a block of text. */
module StructuredResponse {
  import opened Text

  /** An element of the `data` array: a string, or any other JSON value
      (kept as its rendering). */
  datatype Item = Str(s: string) | Other(rendering: string)

  /** The fields the view reads. `data` is `None` unless it is an array;
      `count`, `answer` and `explanation` are `None` when missing or null. */
  datatype Response = Response(
    answerType: Option<string>,
    data: Option<seq<Item>>,
    count: Option<int>,
    answer: Option<string>,
    explanation: Option<string>)

  datatype View = Nothing | ListView(count: int, items: seq<Item>) | TextView(text: string)

  /** `s.replace(/\.$/, "")`: one trailing period is removed. */
  function TrimPeriod(s: string): (r: string)
    ensures EndsWith(s, ".") ==> r + "." == s
    ensures !EndsWith(s, ".") ==> r == s
  {
    if EndsWith(s, ".") then s[..|s| - 1] else s
  }

  /** Only one period goes: a text with a period added loses exactly that
      period, and a text without a trailing period is kept whole. */
  lemma TrimPeriodRemovesOne(s: string)
    ensures TrimPeriod(s + ".") == s
    ensures TrimPeriod(s + "..") == s + "."
  {
    assert (s + ".")[..|s|] == s;
    assert (s + "..")[..|s| + 1] == s + ".";
    assert (s + "..")[|s| + 1..] == ".";
  }

  /** How one list item is displayed. */
  function ShownItem(item: Item): (r: Item)
    ensures item.Other? ==> r == item
    ensures item.Str? ==> r.Str? && (r.s == item.s || r.s + "." == item.s)
  {
    match item
    case Str(s) => Str(TrimPeriod(s))
    case Other(_) => item
  }

  function ShownItems(items: seq<Item>): (r: seq<Item>)
    ensures |r| == |items|
    ensures forall k :: 0 <= k < |items| ==> r[k] == ShownItem(items[k])
  {
    if |items| == 0 then [] else [ShownItem(items[0])] + ShownItems(items[1..])
  }

  /** JavaScript truthiness of the `count` field. */
  predicate CountGiven(count: Option<int>) {
    count.Some? && count.value != 0
  }

  /** The component's output for a (possibly missing) response. */
  function Render(response: Option<Response>): (v: View)
    ensures response.None? <==> v.Nothing?
    ensures v.ListView? <==> response.Some? && response.value.answerType == Some("list") && response.value.data.Some?
    ensures v.ListView? ==>
      var data := response.value.data.value;
      |v.items| == |data| &&
      (forall k :: 0 <= k < |data| ==> v.items[k] == ShownItem(data[k])) &&
      v.count == (if CountGiven(response.value.count) then response.value.count.value else |data|)
    ensures v.TextView? ==>
      v.text == (if response.value.answer.Some? && response.value.answer.value != "" then response.value.answer.value
                 else if response.value.explanation.Some? && response.value.explanation.value != "" then response.value.explanation.value
                 else "No answer available")
  {
    match response
    case None => Nothing
    case Some(r) =>
      if r.answerType == Some("list") && r.data.Some? then
        ListView(if CountGiven(r.count) then r.count.value else |r.data.value|, ShownItems(r.data.value))
      else
        var text :=
          if r.answer.Some? && r.answer.value != "" then r.answer.value
          else if r.explanation.Some? && r.explanation.value != "" then r.explanation.value
          else "No answer available";
        TextView(text)
  }

  /** The text view never shows an empty text. */
  lemma TextViewNeverEmpty(response: Response)
    ensures Render(Some(response)).TextView? ==> Render(Some(response)).text != ""
  {
  }

  /** When the response's count is the number of items, the count shown is
      the number of items shown, also for an empty list. */
  lemma {:induction false} ListCountMatchesItems(items: seq<Item>, answer: Option<string>, explanation: Option<string>)
    ensures var v := Render(Some(Response(Some("list"), Some(items), Some(|items|), answer, explanation)));
      v.ListView? && v.count == |v.items| == |items|
  {
  }
}
