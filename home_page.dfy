/** The landing page (`HomePage`): three dropdowns for grade, subject and
    chapter, where choosing a level clears the levels below it, and an
    Open Chat button. Grades are offered as "Grade <g>" labels and the
    prefix is removed again before the grade leaves the page. The catalogue
    lookups are parameters: the page's part is which lookup it makes. */
module HomePage {
  import opened Text

  const GradePrefix := "Grade "

  /** The label offered for a grade from the catalogue. */
  function GradeLabel(g: string): (shown: string)
    ensures StartsWith(shown, GradePrefix) && shown[|GradePrefix|..] == g
  {
    GradePrefix + g
  }

  /** `grade.replace("Grade ", "")`: the first "Grade " is removed, so a
      label loses its prefix and a text without one is left alone. */
  function CleanGrade(grade: string): (g: string)
    ensures !Contains(grade, GradePrefix) ==> g == grade
    ensures StartsWith(grade, GradePrefix) ==> g == grade[|GradePrefix|..]
  {
    if StartsWith(grade, GradePrefix) then
      assert OccursAt(grade, GradePrefix, 0);
      IndexOfIs(grade, GradePrefix, 0, 0);
      ReplaceFirst(grade, GradePrefix, "")
    else
      ReplaceFirst(grade, GradePrefix, "")
  }

  /** Removing the prefix from a label gives back the grade, whatever the
      grade's own text. */
  lemma CleanGradeOfLabel(g: string)
    ensures CleanGrade(GradeLabel(g)) == g
  {
    var shown := GradeLabel(g);
    assert OccursAt(shown, GradePrefix, 0);
    assert IndexOf(shown, GradePrefix, 0) == Some(0);
  }

  /** The options of the grade dropdown. */
  function GradeOptions(grades: seq<string>): (options: seq<string>)
    ensures |options| == |grades|
    ensures forall k :: 0 <= k < |grades| ==> options[k] == GradeLabel(grades[k])
  {
    if |grades| == 0 then [] else [GradeLabel(grades[0])] + GradeOptions(grades[1..])
  }

  /** Cleaning any grade option gives back the catalogue entry it came from. */
  lemma {:induction false} GradeOptionsRoundTrip(grades: seq<string>, k: nat)
    requires k < |grades|
    ensures k < |GradeOptions(grades)| && CleanGrade(GradeOptions(grades)[k]) == grades[k]
  {
    CleanGradeOfLabel(grades[k]);
  }

  /** `CustomDropdown`: its list is open or closed. */
  class Dropdown {
    var open: bool

    constructor ()
      ensures !open
    {
      open := false;
    }

    /** The list is shown only when open and not disabled. */
    predicate ShowsList(disabled: bool)
      reads this
      ensures ShowsList(disabled) ==> !disabled
    {
      open && !disabled
    }

    /** The button: a disabled button ignores the click, otherwise the list
        toggles. */
    method Click(disabled: bool)
      modifies this
      ensures disabled ==> open == old(open)
      ensures !disabled ==> open == !old(open)
    {
      if !disabled {
        open := !open;
      }
    }

    /** Picking an option closes the list. */
    method Pick()
      modifies this
      ensures !open
    {
      open := false;
    }
  }

  /** What Open Chat carries to the chat page. */
  datatype ChatState = ChatState(grade: string, subject: string, chapter: Option<string>)

  /** A catalogue lookup the page makes. */
  datatype Lookup = Subjects(grade: string) | Chapters(grade: string, subject: string)

  class Home {
    var grade: string
    var subject: string
    var chapter: string
    var grades: seq<string>
    var subjects: seq<string>
    var chapters: seq<string>
    const gradeBox: Dropdown
    const subjectBox: Dropdown
    const chapterBox: Dropdown

    ghost predicate Valid()
      reads this
    {
      gradeBox != subjectBox && subjectBox != chapterBox && gradeBox != chapterBox
    }

    constructor ()
      ensures Valid() && fresh(gradeBox) && fresh(subjectBox) && fresh(chapterBox)
      ensures grade == "" && subject == "" && chapter == ""
      ensures grades == [] && subjects == [] && chapters == []
      ensures !gradeBox.open && !subjectBox.open && !chapterBox.open
    {
      grade, subject, chapter := "", "", "";
      grades, subjects, chapters := [], [], [];
      gradeBox := new Dropdown();
      subjectBox := new Dropdown();
      chapterBox := new Dropdown();
    }

    predicate SubjectDisabled()
      reads this
    {
      grade == ""
    }

    predicate ChapterDisabled()
      reads this
    {
      subject == ""
    }

    predicate OpenChatDisabled()
      reads this
    {
      grade == "" || subject == ""
    }

    /** The subject lookup made after the grade changed, if any. */
    function SubjectLookup(): (l: Option<Lookup>)
      reads this
      ensures l.None? <==> grade == ""
      ensures l.Some? ==> l.value == Subjects(CleanGrade(grade))
    {
      if grade == "" then None else Some(Subjects(CleanGrade(grade)))
    }

    /** The chapter lookup made after the grade or subject changed, if any. */
    function ChapterLookup(): (l: Option<Lookup>)
      reads this
      ensures l.None? <==> grade == "" || subject == ""
      ensures l.Some? ==> l.value == Chapters(CleanGrade(grade), subject)
    {
      if grade == "" || subject == "" then None else Some(Chapters(CleanGrade(grade), subject))
    }

    /** The catalogue answered a lookup. */
    method GradesLoaded(data: seq<string>)
      modifies this`grades
      ensures grades == data
    {
      grades := data;
    }

    method SubjectsLoaded(data: seq<string>)
      modifies this`subjects
      ensures subjects == data
    {
      subjects := data;
    }

    method ChaptersLoaded(data: seq<string>)
      modifies this`chapters
      ensures chapters == data
    {
      chapters := data;
    }

    /** Picking option `k` of the grade list: sets the grade, clears subject
        and chapter; the loaded option lists stay. */
    method PickGrade(k: nat)
      requires Valid() && gradeBox.ShowsList(false) && k < |grades|
      modifies this`grade, this`subject, this`chapter, gradeBox
      ensures Valid() && !gradeBox.open
      ensures grade == GradeLabel(grades[k]) && subject == "" && chapter == ""
      ensures CleanGrade(grade) == grades[k]
      ensures grades == old(grades) && subjects == old(subjects) && chapters == old(chapters)
      ensures SubjectLookup() == Some(Subjects(grades[k])) && ChapterLookup().None?
    {
      var option := GradeOptions(grades)[k];
      grade := option;
      subject := "";
      chapter := "";
      gradeBox.Pick();
      CleanGradeOfLabel(grades[k]);
    }

    /** Picking option `k` of the subject list: sets the subject, clears
        the chapter; the grade stays. */
    method PickSubject(k: nat)
      requires Valid() && subjectBox.ShowsList(SubjectDisabled()) && k < |subjects|
      modifies this`subject, this`chapter, subjectBox
      ensures Valid() && !subjectBox.open
      ensures subject == subjects[k] && chapter == "" && grade == old(grade)
      ensures grades == old(grades) && subjects == old(subjects) && chapters == old(chapters)
    {
      subject := subjects[k];
      chapter := "";
      subjectBox.Pick();
    }

    /** Picking option `k` of the chapter list changes only the chapter. */
    method PickChapter(k: nat)
      requires Valid() && chapterBox.ShowsList(ChapterDisabled()) && k < |chapters|
      modifies this`chapter, chapterBox
      ensures Valid() && !chapterBox.open
      ensures chapter == chapters[k] && grade == old(grade) && subject == old(subject)
      ensures grades == old(grades) && subjects == old(subjects) && chapters == old(chapters)
    {
      chapter := chapters[k];
      chapterBox.Pick();
    }

    /** Open Chat: the cleaned grade, the subject and the chapter or null. */
    function OpenChat(): (s: ChatState)
      reads this
      requires !OpenChatDisabled()
      ensures s.grade == CleanGrade(grade) && s.subject == subject
      ensures s.chapter.None? <==> chapter == ""
      ensures s.chapter.Some? ==> s.chapter.value == chapter
    {
      ChatState(CleanGrade(grade), subject, if chapter == "" then None else Some(chapter))
    }
  }

  /** Choosing grade option `k` and then a subject and opening the chat
      sends the catalogue's own grade and no chapter. */
  method ChooseAndOpen(catalogue: seq<string>, k: nat, subjects: seq<string>, j: nat)
    returns (state: ChatState)
    requires k < |catalogue| && j < |subjects| && subjects[j] != ""
    ensures state == ChatState(catalogue[k], subjects[j], None)
  {
    var page := new Home();
    page.GradesLoaded(catalogue);
    page.gradeBox.Click(false);
    page.PickGrade(k);
    page.SubjectsLoaded(subjects);
    page.subjectBox.Click(page.SubjectDisabled());
    page.PickSubject(j);
    state := page.OpenChat();
  }
}
