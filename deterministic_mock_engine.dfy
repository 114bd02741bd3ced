/** `generate_mock_exam` (`deterministic_mock_engine.py`): the five fixed
    questions, shuffled in place, as a fifteen-minute mock exam. The random
    source is left open: the shuffle is proved for every choice it makes. */
module DeterministicMockEngine {

  datatype Question = Question(id: int, question: string, options: seq<string>, correctAnswer: string)

  datatype MockExam = MockExam(intent: string, chapter: string, durationMinutes: int, questions: seq<Question>)

  /** The fixed question bank, in its written order. */
  function Bank(): (bank: seq<Question>)
    ensures |bank| == 5
  {
    [ Question(1, "Which of the following is a mammal?", ["Frog", "Whale", "Snake", "Crocodile"], "Whale"),
      Question(2, "Which animal lays eggs?", ["Cow", "Goat", "Hen", "Dog"], "Hen"),
      Question(3, "Which animal undergoes metamorphosis?", ["Frog", "Cow", "Dog", "Cat"], "Frog"),
      Question(4, "Which is an aquatic animal?", ["Camel", "Whale", "Tiger", "Monkey"], "Whale"),
      Question(5, "Which animal gives birth to young ones?", ["Snake", "Hen", "Cow", "Frog"], "Cow") ]
  }

  /** Every bank question is answerable from its own options. */
  lemma BankAnswerable()
    ensures forall q :: q in Bank() ==> q.correctAnswer in q.options && 1 <= q.id <= 5
  {
  }

  /** Ids are 1 to 5, one per question. */
  lemma BankIdsDistinct()
    ensures forall x, y :: x in Bank() && y in Bank() && x.id == y.id ==> x == y
  {
  }

  /** No question appears twice. */
  lemma BankOnce(q: Question)
    ensures multiset(Bank())[q] <= 1
  {
    var b := Bank();
    assert b == [b[0]] + [b[1]] + [b[2]] + [b[3]] + [b[4]];
  }

  /** `random.shuffle`: for `i` from the last index down to 1, swap `a[i]`
      with `a[j]` for some `j` in `0..i`. */
  method Shuffle(a: array<Question>)
    modifies a
    ensures multiset(a[..]) == multiset(old(a[..]))
  {
    var i := a.Length - 1;
    while i >= 1
      invariant -1 <= i < a.Length
      invariant multiset(a[..]) == multiset(old(a[..]))
    {
      var j :| 0 <= j <= i;
      a[i], a[j] := a[j], a[i];
      i := i - 1;
    }
  }

  /** A sequence holding the same element at two places counts it twice. */
  lemma TwoCopies(s: seq<Question>, a: nat, b: nat)
    requires a < b < |s| && s[a] == s[b]
    ensures multiset(s)[s[a]] >= 2
  {
    assert s == s[..a] + [s[a]] + s[a + 1..b] + [s[b]] + s[b + 1..];
  }

  /** Any rearrangement of the bank keeps the bank's guarantees. */
  lemma RearrangedBank(qs: seq<Question>)
    requires multiset(qs) == multiset(Bank())
    ensures |qs| == 5
    ensures forall k :: 0 <= k < |qs| ==> qs[k] in Bank() && qs[k].correctAnswer in qs[k].options
    ensures forall a, b :: 0 <= a < b < |qs| ==> qs[a].id != qs[b].id
  {
    assert |qs| == |multiset(qs)| == |multiset(Bank())| == 5;
    BankAnswerable();
    BankIdsDistinct();
    forall k | 0 <= k < |qs|
      ensures qs[k] in Bank()
    {
      assert qs[k] in multiset(qs);
    }
    forall a, b | 0 <= a < b < |qs|
      ensures qs[a].id != qs[b].id
    {
      assert qs[a] in multiset(qs) && qs[b] in multiset(qs);
      if qs[a].id == qs[b].id {
        TwoCopies(qs, a, b);
        BankOnce(qs[a]);
      }
    }
  }

  /** `generate_mock_exam(context, chapter_name)`; the context is not used. */
  method GenerateMockExam(context: string, chapterName: string) returns (exam: MockExam)
    ensures exam.intent == "mock_exam" && exam.chapter == chapterName && exam.durationMinutes == 15
    ensures multiset(exam.questions) == multiset(Bank())
    ensures |exam.questions| == 5
    ensures forall k :: 0 <= k < 5 ==> exam.questions[k].correctAnswer in exam.questions[k].options
    ensures forall a, b :: 0 <= a < b < 5 ==> exam.questions[a].id != exam.questions[b].id
  {
    var bank := Bank();
    var questions := new Question[5](i requires 0 <= i < 5 => bank[i]);
    assert questions[..] == bank;
    Shuffle(questions);
    var picked := questions[..][..5];
    assert picked == questions[..];
    RearrangedBank(picked);
    exam := MockExam("mock_exam", chapterName, 15, picked);
  }
}
