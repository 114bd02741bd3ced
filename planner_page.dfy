/** The study-plan page (`PlannerPage`): a guard on the form fields before
    the plan request, and the page layout of the PDF export. Only the
    integer bookkeeping of the export is modelled: the vertical cursor `y`,
    the page number, and where each line of text lands. The drawing calls
    themselves, fonts and the file download are not. */
module PlannerPage {
  import opened Text

  // ---------------------------------------------------------------
  // JavaScript `parseInt` with no radix argument
  // ---------------------------------------------------------------

  /** The value of `c` as a decimal digit, or as a hexadecimal one when
      `hex`, if it is one. */
  function DigitOf(c: char, hex: bool): Option<nat> {
    if '0' <= c <= '9' then Some(c as int - '0' as int)
    else if hex && 'a' <= c <= 'f' then Some(c as int - 'a' as int + 10)
    else if hex && 'A' <= c <= 'F' then Some(c as int - 'A' as int + 10)
    else None
  }

  /** Length of the longest prefix of `s` made of digits. */
  function DigitRun(s: string, hex: bool): (n: nat)
    ensures n <= |s|
    ensures forall k :: 0 <= k < n ==> DigitOf(s[k], hex).Some?
    ensures n < |s| ==> DigitOf(s[n], hex).None?
  {
    if |s| == 0 || DigitOf(s[0], hex).None? then 0 else 1 + DigitRun(s[1..], hex)
  }

  /** Value of a string of digits, in base 16 when `hex`, else base 10. */
  function RunValue(s: string, hex: bool): nat
    requires forall k :: 0 <= k < |s| ==> DigitOf(s[k], hex).Some?
  {
    if |s| == 0 then 0
    else
      var high := RunValue(s[..|s| - 1], hex);
      (if hex then 16 * high else 10 * high) + DigitOf(s[|s| - 1], hex).value
  }

  /** The digits after the sign: a `0x`/`0X` prefix switches to
      hexadecimal, and the longest run of digits that follows is read. */
  function ParseMagnitude(u: string): Option<nat> {
    var hex := |u| >= 2 && u[0] == '0' && (u[1] == 'x' || u[1] == 'X');
    var body := if hex then u[2..] else u;
    var n := DigitRun(body, hex);
    if n == 0 then None else Some(RunValue(body[..n], hex))
  }

  /** `parseInt(s)`: leading whitespace is skipped, then an optional sign,
      then the magnitude; whatever follows the digits is ignored. `None`
      is NaN. */
  function ParseInt(s: string): Option<int> {
    ParseSigned(s[LeadingSpace(s, JavaScript)..])
  }

  /** The sign and the magnitude. */
  function ParseSigned(t: string): Option<int> {
    var negative := |t| > 0 && t[0] == '-';
    var u := if |t| > 0 && (t[0] == '-' || t[0] == '+') then t[1..] else t;
    var m := ParseMagnitude(u);
    if m.None? then None
    else if negative then Some(-(m.value as int))
    else Some(m.value as int)
  }

  /** Reading a rendered integer back gives the integer. */
  lemma ParseIntOfDecimal(i: int)
    ensures ParseInt(IntToString(i)) == Some(i)
  {
    var s := IntToString(i);
    if i < 0 {
      var n: nat := -i;
      var d := NatToString(n);
      DecimalRoundTrip(n);
      assert s[1..] == d;
      NegativeDigits(s, n);
    } else {
      DecimalRoundTrip(i);
      PositiveDigits(s, i);
    }
  }

  /** A text starting with a sign or a digit is read from its start. */
  lemma NoLeadingSpace(s: string)
    requires |s| > 0 && (s[0] == '-' || IsDigit(s[0]))
    ensures ParseInt(s) == ParseSigned(s)
  {
    assert LeadingSpace(s, JavaScript) == 0;
    assert s[0..] == s;
  }

  /** A run of decimal digits is read to its value. */
  lemma PositiveDigits(s: string, n: nat)
    requires |s| > 0 && forall k :: 0 <= k < |s| ==> IsDigit(s[k])
    requires DecimalValue(s) == n
    ensures ParseInt(s) == Some(n)
  {
    NoLeadingSpace(s);
    MagnitudeOfDecimal(s);
    assert s[0] != '-' && s[0] != '+';
  }

  /** A minus sign before a run of decimal digits negates its value. */
  lemma NegativeDigits(s: string, n: nat)
    requires |s| > 1 && s[0] == '-'
    requires forall k :: 0 <= k < |s| - 1 ==> IsDigit(s[1..][k])
    requires DecimalValue(s[1..]) == n
    ensures ParseInt(s) == Some(-(n as int))
  {
    NoLeadingSpace(s);
    MagnitudeOfDecimal(s[1..]);
  }

  lemma MagnitudeOfDecimal(digits: string)
    requires |digits| > 0 && forall k :: 0 <= k < |digits| ==> IsDigit(digits[k])
    ensures ParseMagnitude(digits) == Some(DecimalValue(digits))
  {
    var hex := |digits| >= 2 && digits[0] == '0' && (digits[1] == 'x' || digits[1] == 'X');
    assert !hex by {
      if |digits| >= 2 {
        assert IsDigit(digits[1]);
      }
    }
    DecimalRunValue(digits);
    var n := DigitRun(digits, false);
    assert n == |digits|;
    assert digits[..n] == digits;
  }

  /** A decimal rendering is read in full, and to its own value. */
  lemma {:induction false} DecimalRunValue(s: string)
    requires forall k :: 0 <= k < |s| ==> IsDigit(s[k])
    ensures forall k :: 0 <= k < |s| ==> DigitOf(s[k], false).Some?
    ensures DigitRun(s, false) == |s|
    ensures RunValue(s, false) == DecimalValue(s)
  {
    if |s| > 0 {
      DecimalRunValue(s[1..]);
      DecimalRunValue(s[..|s| - 1]);
    }
  }

  // ---------------------------------------------------------------
  // The form and the plan request
  // ---------------------------------------------------------------

  /** The days field holds the number 7 until the user types, then text. */
  datatype Days = Num(n: int) | Typed(s: string)

  /** `!days` is false. */
  predicate DaysTruthy(d: Days) {
    match d
    case Num(n) => n != 0
    case Typed(s) => s != ""
  }

  /** `parseInt(days)`. A number is first turned into its decimal text,
      which reads back as the number itself (`NumberDaysParse`). */
  function ParseDays(d: Days): Option<int> {
    match d
    case Num(n) => Some(n)
    case Typed(s) => ParseInt(s)
  }

  /** The untouched field, the number 7, is sent as 7: `parseInt` of a
      number reads its decimal rendering back. */
  lemma NumberDaysParse(n: int)
    ensures ParseDays(Num(n)) == ParseInt(IntToString(n))
  {
    ParseIntOfDecimal(n);
  }

  /** The request body of `/generate-plan/`; `None` is NaN (sent as null). */
  datatype PlanRequest = PlanRequest(grade: Option<int>, subject: string, chapterName: string, durationDays: Option<int>)

  /** One day of a plan as the page reads it. */
  datatype PlanDay = PlanDay(day: int, focus: string, estimatedHours: string, topics: seq<string>)

  datatype Plan = Plan(days: seq<PlanDay>)

  // ---------------------------------------------------------------
  // The PDF layout
  // ---------------------------------------------------------------

  datatype LineKind = Title | FormField | DayHeading | DayHours | Topic

  /** A line of text and where it was drawn. */
  datatype Mark = Mark(kind: LineKind, y: int, page: nat)

  /** The lines drawn so far, the cursor and the current page. */
  datatype Pen = Pen(marks: seq<Mark>, y: int, page: nat)

  const Top := 20
  const DayLimit := 270
  const TopicLimit := 280

  /** The title at 20, the three form fields at 30, 36 and 42; the cursor
      ends at 52 on page 1. */
  function Header(): (p: Pen)
    ensures p.y == 52 && p.page == 1 && |p.marks| == 4
  {
    Pen([Mark(Title, 20, 1), Mark(FormField, 30, 1), Mark(FormField, 36, 1), Mark(FormField, 42, 1)], 52, 1)
  }

  /** Past `limit`, a new page starts and the cursor returns to the top. */
  function BreakIfBelow(p: Pen, limit: int): (q: Pen)
    ensures q.marks == p.marks
    ensures p.y > limit ==> q.y == Top && q.page == p.page + 1
    ensures p.y <= limit ==> q == p
  {
    if p.y > limit then Pen(p.marks, Top, p.page + 1) else p
  }

  /** One topic line: a break past 280, the line, 6 down. */
  function PutTopic(p: Pen): Pen {
    var q := BreakIfBelow(p, TopicLimit);
    Pen(q.marks + [Mark(Topic, q.y, q.page)], q.y + 6, q.page)
  }

  function PutTopics(p: Pen, n: nat): Pen {
    if n == 0 then p else PutTopic(PutTopics(p, n - 1))
  }

  /** The two lines that open a day: a break past 270, the heading, 7
      down, the estimated hours, 7 down. */
  function OpenDay(p: Pen): Pen {
    var q := BreakIfBelow(p, DayLimit);
    Pen(q.marks + [Mark(DayHeading, q.y, q.page), Mark(DayHours, q.y + 7, q.page)], q.y + 14, q.page)
  }

  /** A whole day: its opening lines, its topics, then 4 down. */
  function PutDay(p: Pen, d: PlanDay): Pen {
    var t := PutTopics(OpenDay(p), |d.topics|);
    Pen(t.marks, t.y + 4, t.page)
  }

  function PutDays(p: Pen, ds: seq<PlanDay>): Pen {
    if |ds| == 0 then p else PutDay(PutDays(p, ds[..|ds| - 1]), ds[|ds| - 1])
  }

  /** Where the lines of a whole export land. */
  function Layout(plan: Plan): Pen {
    PutDays(Header(), plan.days)
  }

  /** No heading is drawn below 270 and no topic below 280, and nothing
      above the top margin. */
  ghost predicate WithinMargins(marks: seq<Mark>) {
    forall k :: 0 <= k < |marks| ==>
      Top <= marks[k].y &&
      (marks[k].kind == DayHeading ==> marks[k].y <= DayLimit) &&
      (marks[k].kind == Topic ==> marks[k].y <= TopicLimit)
  }

  /** Page numbers never go back and never skip a page. */
  ghost predicate PagesInOrder(p: Pen) {
    && (forall k :: 0 <= k < |p.marks| ==> 1 <= p.marks[k].page <= p.page)
    && (forall k :: 0 < k < |p.marks| ==>
          p.marks[k].page == p.marks[k - 1].page || p.marks[k].page == p.marks[k - 1].page + 1)
    && (|p.marks| > 0 ==> p.page == p.marks[|p.marks| - 1].page)
  }

  /** Number of places where a line starts a new page. */
  function PageStarts(marks: seq<Mark>): nat {
    if |marks| < 2 then 0
    else PageStarts(marks[..|marks| - 1]) + (if marks[|marks| - 1].page != marks[|marks| - 2].page then 1 else 0)
  }

  /** Every export stays inside the margins, its page numbers run 1, 2, …
      without gaps, and it has one page more than it has page breaks. */
  lemma {:induction false} LayoutShape(plan: Plan)
    ensures LaidOut(Layout(plan))
  {
    HeaderShaped();
    PutDaysShape(Header(), plan.days);
  }

  /** Inside the margins, pages in order, one page more than page breaks,
      and the cursor below the top margin. */
  ghost predicate LaidOut(p: Pen) {
    WithinMargins(p.marks) && PagesInOrder(p) && p.page == 1 + PageStarts(p.marks) && p.y >= Top
  }

  lemma HeaderShaped()
    ensures Shaped(Header())
  {
    var h := Header();
    assert PageStarts(h.marks[..2]) == 0;
    assert PageStarts(h.marks[..3]) == 0 by {
      assert h.marks[..3][..2] == h.marks[..2];
    }
    assert PageStarts(h.marks) == 0;
  }

  ghost predicate Shaped(p: Pen) {
    |p.marks| > 0 && p.marks[0].page == 1 && LaidOut(p)
  }

  lemma {:induction false} PutDaysShape(p: Pen, ds: seq<PlanDay>)
    requires Shaped(p)
    ensures Shaped(PutDays(p, ds))
  {
    if |ds| > 0 {
      var before := PutDays(p, ds[..|ds| - 1]);
      PutDaysShape(p, ds[..|ds| - 1]);
      OpenDayShape(before);
      PutTopicsShape(OpenDay(before), |ds[|ds| - 1].topics|);
    }
  }

  lemma OpenDayShape(p: Pen)
    requires Shaped(p)
    ensures Shaped(OpenDay(p))
  {
    var q := BreakIfBelow(p, DayLimit);
    var heading := Mark(DayHeading, q.y, q.page);
    AppendShape(q, p, heading);
    var mid := Pen(q.marks + [heading], q.y, q.page);
    AppendShape(mid, mid, Mark(DayHours, q.y + 7, q.page));
    assert mid.marks + [Mark(DayHours, q.y + 7, q.page)] == OpenDay(p).marks;
  }

  lemma {:induction false} PutTopicsShape(p: Pen, n: nat)
    requires Shaped(p)
    ensures Shaped(PutTopics(p, n))
  {
    if n > 0 {
      var before := PutTopics(p, n - 1);
      PutTopicsShape(p, n - 1);
      var q := BreakIfBelow(before, TopicLimit);
      AppendShape(q, before, Mark(Topic, q.y, q.page));
    }
  }

  /** Appending one line at the cursor of `q`, where `q` is `p` or `p`
      moved to the top of the next page, keeps the shape. */
  lemma AppendShape(q: Pen, p: Pen, m: Mark)
    requires Shaped(p) && q.marks == p.marks
    requires (q.y == p.y && q.page == p.page) || (q.y == Top && q.page == p.page + 1)
    requires m.y == q.y || (m.y == q.y + 7 && m.kind == DayHours)
    requires m.page == q.page && m.y >= Top
    requires m.kind == DayHeading ==> m.y <= DayLimit
    requires m.kind == Topic ==> m.y <= TopicLimit
    ensures Shaped(Pen(q.marks + [m], q.y, q.page))
  {
    var r := Pen(q.marks + [m], q.y, q.page);
    var n := |p.marks|;
    assert r.marks[..n] == p.marks;
    assert PageStarts(r.marks) == PageStarts(p.marks) + (if m.page != p.marks[n - 1].page then 1 else 0);
  }

  /** A day that fits on the current page, headings and topics included,
      moves the cursor down by 7 + 7 + 6 per topic + 4 and adds no page. */
  lemma {:induction false} DayWithoutBreak(p: Pen, d: PlanDay)
    requires p.y <= DayLimit
    requires p.y + 14 + 6 * |d.topics| <= TopicLimit + 6
    ensures PutDay(p, d).y == p.y + 7 + 7 + 6 * |d.topics| + 4
    ensures PutDay(p, d).page == p.page
  {
    TopicsWithoutBreak(OpenDay(p), |d.topics|);
  }

  lemma {:induction false} TopicsWithoutBreak(p: Pen, n: nat)
    requires p.y + 6 * n <= TopicLimit + 6
    ensures PutTopics(p, n).y == p.y + 6 * n && PutTopics(p, n).page == p.page
  {
    if n > 0 {
      TopicsWithoutBreak(p, n - 1);
    }
  }

  class Planner {
    var grade: string
    var subject: string
    var chapter: string
    var days: Days
    var plan: Option<Plan>
    var loading: bool
    var requests: seq<PlanRequest>
    var alerts: seq<string>

    constructor ()
      ensures grade == "" && subject == "" && chapter == "" && days == Num(7)
      ensures plan.None? && !loading && requests == [] && alerts == []
    {
      grade, subject, chapter, days := "", "", "", Num(7);
      plan, loading, requests, alerts := None, false, [], [];
    }

    /** The grade `<select>`'s `onChange`. */
    method SetGrade(value: string)
      modifies this`grade
      ensures grade == value
    {
      grade := value;
    }

    /** The subject `<select>`'s `onChange`. */
    method SetSubject(value: string)
      modifies this`subject
      ensures subject == value
    {
      subject := value;
    }

    /** The chapter `<select>`'s `onChange`. */
    method SetChapter(value: string)
      modifies this`chapter
      ensures chapter == value
    {
      chapter := value;
    }

    /** The days `<input type="number">`'s `onChange`: from then on the
        field holds the typed text, not a number, and an emptied field
        fails the guard of `generatePlan`. */
    method SetDays(value: string)
      modifies this`days
      ensures days == Typed(value)
      ensures value == "" ==> !FieldsFilled()
    {
      days := Typed(value);
    }

    /** All four fields are filled in. */
    predicate FieldsFilled()
      reads this
    {
      grade != "" && subject != "" && chapter != "" && DaysTruthy(days)
    }

    /** `generatePlan`; `reply` is the service's plan, or `None` when the
        request fails. */
    method GeneratePlan(reply: Option<Plan>)
      modifies this`plan, this`loading, this`requests, this`alerts
      ensures !FieldsFilled() ==>
        alerts == old(alerts) + ["Please select all fields"] &&
        requests == old(requests) && plan == old(plan) && loading == old(loading)
      ensures FieldsFilled() ==>
        requests == old(requests) + [PlanRequest(ParseInt(grade), subject, chapter, ParseDays(days))] && !loading
      ensures FieldsFilled() && reply.Some? ==> plan == reply && alerts == old(alerts)
      ensures FieldsFilled() && reply.None? ==>
        plan == old(plan) && alerts == old(alerts) + ["Failed to generate study plan."]
    {
      if !FieldsFilled() {
        alerts := alerts + ["Please select all fields"];
        return;
      }
      Send(PlanRequest(ParseInt(grade), subject, chapter, ParseDays(days)), reply);
    }

    /** The request of `generatePlan` once the fields are checked. */
    method Send(request: PlanRequest, reply: Option<Plan>)
      modifies this`plan, this`loading, this`requests, this`alerts
      ensures requests == old(requests) + [request] && !loading
      ensures reply.Some? ==> plan == reply && alerts == old(alerts)
      ensures reply.None? ==> plan == old(plan) && alerts == old(alerts) + ["Failed to generate study plan."]
    {
      loading := true;
      requests := requests + [request];
      if reply.Some? {
        plan := reply;
      } else {
        alerts := alerts + ["Failed to generate study plan."];
      }
      loading := false;
    }

    /** `downloadPDF`: nothing without a plan; otherwise the header, then
        for each day a possible page break, the heading and hours lines,
        and for each topic a possible page break and the topic line. */
    method DownloadPdf() returns (out: Option<Pen>)
      ensures out.None? <==> plan.None?
      ensures plan.Some? ==> out == Some(Layout(plan.value))
    {
      if plan.None? {
        return None;
      }
      var ds := plan.value.days;
      var marks: seq<Mark> := [];
      var y := 20;
      var page := 1;
      marks := marks + [Mark(Title, y, page)];
      y := y + 10;
      marks := marks + [Mark(FormField, y, page)];
      y := y + 6;
      marks := marks + [Mark(FormField, y, page)];
      y := y + 6;
      marks := marks + [Mark(FormField, y, page)];
      y := y + 10;
      var i := 0;
      while i < |ds|
        invariant 0 <= i <= |ds|
        invariant Pen(marks, y, page) == PutDays(Header(), ds[..i])
      {
        var day := ds[i];
        if y > DayLimit {
          page := page + 1;
          y := Top;
        }
        marks := marks + [Mark(DayHeading, y, page)];
        y := y + 7;
        marks := marks + [Mark(DayHours, y, page)];
        y := y + 7;
        ghost var dayOpen := Pen(marks, y, page);
        assert dayOpen == OpenDay(PutDays(Header(), ds[..i]));
        var j := 0;
        while j < |day.topics|
          invariant 0 <= j <= |day.topics|
          invariant Pen(marks, y, page) == PutTopics(dayOpen, j)
        {
          if y > TopicLimit {
            page := page + 1;
            y := Top;
          }
          marks := marks + [Mark(Topic, y, page)];
          y := y + 6;
          j := j + 1;
        }
        y := y + 4;
        assert ds[..i + 1][..i] == ds[..i];
        i := i + 1;
      }
      assert ds[..|ds|] == ds;
      out := Some(Pen(marks, y, page));
    }
  }
}
