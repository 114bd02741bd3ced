/** `generate_fallback_plan` (`deterministic_planner.py`): a study plan of
    one entry per day, where every seventh day is a revision day, every
    other fifth day a mock-test day, and every remaining day a study day. */
module DeterministicPlanner {
  import opened Text

  const Revision := "Full Revision + Practice Questions"
  const MockPractice := "Mock Test Practice"
  const Study := "Concept Study + Notes"

  datatype DayEntry = DayEntry(day: int, topics: string, tasks: string)

  datatype FallbackPlan = FallbackPlan(durationDays: int, chapter: string, plan: seq<DayEntry>)

  /** The task of day `i`: the seven-day rule wins over the five-day rule. */
  function TaskFor(i: int): (t: string)
    ensures t == Revision <==> i % 7 == 0
    ensures t == MockPractice <==> i % 7 != 0 && i % 5 == 0
    ensures t == Study <==> i % 7 != 0 && i % 5 != 0
  {
    if i % 7 == 0 then Revision
    else if i % 5 == 0 then MockPractice
    else Study
  }

  /** The entry of day `i`. */
  function Entry(i: nat, chapter: string): DayEntry {
    DayEntry(i, chapter + " - Section " + NatToString(i), TaskFor(i))
  }

  /** The plan for `n` days: `range(1, n + 1)` is empty when `n < 1`. */
  function Entries(n: int, chapter: string): (plan: seq<DayEntry>)
    decreases if n < 0 then 0 else n
    ensures |plan| == if n < 0 then 0 else n
    ensures forall k :: 0 <= k < |plan| ==> plan[k] == Entry(k + 1, chapter)
  {
    if n <= 0 then [] else Entries(n - 1, chapter) + [Entry(n, chapter)]
  }

  /** `generate_fallback_plan(duration_days, chapter_name)`. */
  method GenerateFallbackPlan(durationDays: int, chapterName: string) returns (r: FallbackPlan)
    ensures r.durationDays == durationDays && r.chapter == chapterName
    ensures r.plan == Entries(durationDays, chapterName)
  {
    var plan: seq<DayEntry> := [];
    var i := 1;
    while i < durationDays + 1
      invariant 1 <= i <= if durationDays >= 1 then durationDays + 1 else 1
      invariant plan == Entries(i - 1, chapterName)
    {
      var task;
      if i % 7 == 0 {
        task := Revision;
      } else if i % 5 == 0 {
        task := MockPractice;
      } else {
        task := Study;
      }
      plan := plan + [DayEntry(i, chapterName + " - Section " + NatToString(i), task)];
      i := i + 1;
    }
    if durationDays < 1 {
      assert Entries(durationDays, chapterName) == [] == Entries(i - 1, chapterName);
    } else {
      assert i - 1 == durationDays;
    }
    r := FallbackPlan(durationDays, chapterName, plan);
  }

  /** The topics of day `i` end with the day's own number. */
  lemma SectionNumber(i: nat, chapter: string)
    ensures var prefix := chapter + " - Section ";
      Entry(i, chapter).topics[|prefix|..] == NatToString(i)
  {
  }

  /** Days are numbered 1 to n, each with its own section of the chapter. */
  lemma DaysAndSections(n: nat, chapter: string, a: nat, b: nat)
    requires a < b < n
    ensures Entries(n, chapter)[a].day == a + 1 && Entries(n, chapter)[b].day == b + 1
    ensures Entries(n, chapter)[a].topics != Entries(n, chapter)[b].topics
  {
    var ea, eb := Entries(n, chapter)[a], Entries(n, chapter)[b];
    assert ea == Entry(a + 1, chapter) && eb == Entry(b + 1, chapter);
    if ea.topics == eb.topics {
      var da, db := a + 1, b + 1;
      SectionNumber(da, chapter);
      SectionNumber(db, chapter);
      var sa, sb := NatToString(da), NatToString(db);
      assert sa == sb;
      DecimalRoundTrip(da);
      DecimalRoundTrip(db);
      assert false;
    }
  }

  /** Number of entries of a plan with task `t`. */
  function CountTask(plan: seq<DayEntry>, t: string): (c: nat)
    ensures c <= |plan|
  {
    if |plan| == 0 then 0
    else CountTask(plan[..|plan| - 1], t) + (if plan[|plan| - 1].tasks == t then 1 else 0)
  }

  /** Division by `d` steps up by one exactly at the multiples of `d`. */
  lemma DivStep(n: nat, d: nat)
    requires n >= 1 && d >= 1
    ensures n / d == (n - 1) / d + (if n % d == 0 then 1 else 0)
  {
    var q, r := (n - 1) / d, (n - 1) % d;
    assert n - 1 == q * d + r;
    if r == d - 1 {
      DivUnique(n, d, q + 1, 0);
    } else {
      DivUnique(n, d, q, r + 1);
    }
  }

  lemma DivUnique(n: int, d: nat, q: int, r: int)
    requires d >= 1 && n == q * d + r && 0 <= r < d
    ensures n / d == q && n % d == r
  {
    var q', r' := n / d, n % d;
    assert (q - q') * d == r' - r;
    if q > q' {
      MulAtLeast(q - q', d);
    } else if q < q' {
      MulAtLeast(q' - q, d);
    }
  }

  lemma MulAtLeast(a: int, d: nat)
    requires a >= 1
    ensures a * d >= d
  {
  }

  /** A day is a multiple of 35 exactly when it is a multiple of 5 and 7. */
  lemma MultipleOf35(n: nat)
    ensures n % 35 == 0 <==> n % 5 == 0 && n % 7 == 0
  {
    var q, r := n / 35, n % 35;
    assert n == 35 * q + r;
    DivUnique(n, 5, 7 * q + r / 5, r % 5);
    DivUnique(n, 7, 5 * q + r / 7, r % 7);
  }

  /** Every entry of the plan and the count of `t` grow together. */
  lemma CountStep(n: nat, chapter: string, t: string)
    requires n >= 1
    ensures CountTask(Entries(n, chapter), t) ==
      CountTask(Entries(n - 1, chapter), t) + (if TaskFor(n) == t then 1 else 0)
  {
    var plan := Entries(n, chapter);
    assert plan[..|plan| - 1] == Entries(n - 1, chapter);
  }

  /** The number of multiples of `d` among 1..n. */
  function Multiples(n: nat, d: nat): nat
    requires d >= 1
  {
    if n == 0 then 0 else Multiples(n - 1, d) + (if n % d == 0 then 1 else 0)
  }

  /** ... which is `n / d`. */
  lemma {:induction false} MultiplesIsQuotient(n: nat, d: nat)
    requires d >= 1
    ensures Multiples(n, d) == n / d
  {
    if n >= 1 {
      MultiplesIsQuotient(n - 1, d);
      DivStep(n, d);
    }
  }

  lemma {:induction false} RevisionDaysAreMultiples(n: nat, chapter: string)
    ensures CountTask(Entries(n, chapter), Revision) == Multiples(n, 7)
  {
    if n >= 1 {
      RevisionDaysAreMultiples(n - 1, chapter);
      CountStep(n, chapter, Revision);
    }
  }

  lemma {:induction false} MockDaysAreMultiples(n: nat, chapter: string)
    ensures CountTask(Entries(n, chapter), MockPractice) == Multiples(n, 5) - Multiples(n, 35)
  {
    if n >= 1 {
      var b5, b7, b35 := n % 5 == 0, n % 7 == 0, n % 35 == 0;
      MockDaysAreMultiples(n - 1, chapter);
      CountStep(n, chapter, MockPractice);
      MultipleOf35(n);
      assert Multiples(n, 5) == Multiples(n - 1, 5) + (if b5 then 1 else 0);
      assert Multiples(n, 35) == Multiples(n - 1, 35) + (if b35 then 1 else 0);
      assert (TaskFor(n) == MockPractice) == (!b7 && b5);
      assert b35 == (b5 && b7);
    }
  }

  lemma {:induction false} StudyDaysAreMultiples(n: nat, chapter: string)
    ensures CountTask(Entries(n, chapter), Study) == n - Multiples(n, 7) - Multiples(n, 5) + Multiples(n, 35)
  {
    if n >= 1 {
      var b5, b7, b35 := n % 5 == 0, n % 7 == 0, n % 35 == 0;
      StudyDaysAreMultiples(n - 1, chapter);
      CountStep(n, chapter, Study);
      MultipleOf35(n);
      assert Multiples(n, 5) == Multiples(n - 1, 5) + (if b5 then 1 else 0);
      assert Multiples(n, 7) == Multiples(n - 1, 7) + (if b7 then 1 else 0);
      assert Multiples(n, 35) == Multiples(n - 1, 35) + (if b35 then 1 else 0);
      assert (TaskFor(n) == Study) == (!b7 && !b5);
      assert b35 == (b5 && b7);
    }
  }

  /** An n-day plan has n/7 revision days, n/5 - n/35 mock-test days, and
      study days for the rest. */
  lemma DayCounts(n: nat, chapter: string)
    ensures CountTask(Entries(n, chapter), Revision) == n / 7
    ensures CountTask(Entries(n, chapter), MockPractice) == n / 5 - n / 35
    ensures CountTask(Entries(n, chapter), Study) == n - n / 7 - n / 5 + n / 35
  {
    RevisionDaysAreMultiples(n, chapter);
    MockDaysAreMultiples(n, chapter);
    StudyDaysAreMultiples(n, chapter);
    MultiplesIsQuotient(n, 5);
    MultiplesIsQuotient(n, 7);
    MultiplesIsQuotient(n, 35);
  }

  /** Day 35 is a multiple of both 5 and 7 and gets the revision task. */
  lemma Day35IsRevision(chapter: string)
    ensures Entries(35, chapter)[34].tasks == Revision
  {
  }
}
