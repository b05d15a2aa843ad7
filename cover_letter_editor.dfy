/**
 * The cover-letter editor: a title and a list of questions, each with a title and
 * an answer. The list is refilled with one blank question whenever it is empty,
 * grows by one blank question at a time, loses only its last question and never
 * its only one, and in single-question mode shows the first question alone.
 */
module CoverLetterEditor {

  datatype Question = Question(id: string, title: string, content: string)

  /** The two editable parts of a question, the `field` argument of `updateQuestion`. */
  datatype Field = Title | Content

  /** A blank question; `stamp` stands for `Date.now()`. */
  function NewQuestion(stamp: string): (q: Question)
    ensures q.title == "" && q.content == ""
    ensures q.id == "question-" + stamp
  {
    Question("question-" + stamp, "", "")
  }

  /** `addQuestion`: the list with one blank question appended. */
  function AddQuestion(qs: seq<Question>, stamp: string): (r: seq<Question>)
    ensures |r| == |qs| + 1
    ensures r[..|qs|] == qs
    ensures r[|qs|].title == "" && r[|qs|].content == ""
  {
    qs + [NewQuestion(stamp)]
  }

  /** `removeLastQuestion`: `slice(0, -1)` when there is more than one question, otherwise nothing. */
  function RemoveLast(qs: seq<Question>): (r: seq<Question>)
    ensures |qs| > 1 ==> |r| == |qs| - 1 && r == qs[..|qs| - 1]
    ensures |qs| <= 1 ==> r == qs
    ensures |qs| >= 1 ==> |r| >= 1
  {
    if |qs| > 1 then qs[..|qs| - 1] else qs
  }

  /** Removing the last question undoes adding one, as long as there was a question to begin with. */
  lemma RemoveLastUndoesAdd(qs: seq<Question>, stamp: string)
    requires |qs| >= 1
    ensures RemoveLast(AddQuestion(qs, stamp)) == qs
  {
  }

  /** `{ ...q, [field]: value }`. */
  function SetField(q: Question, field: Field, value: string): (r: Question)
    ensures r.id == q.id
    ensures field == Title ==> r.title == value && r.content == q.content
    ensures field == Content ==> r.content == value && r.title == q.title
  {
    match field
    case Title => q.(title := value)
    case Content => q.(content := value)
  }

  /** `updateQuestion`: the named field of the questions with the id takes the value; nothing else changes. */
  function UpdateQuestion(qs: seq<Question>, id: string, field: Field, value: string): (r: seq<Question>)
    ensures |r| == |qs|
    ensures forall i :: 0 <= i < |r| && qs[i].id == id ==> r[i] == SetField(qs[i], field, value)
    ensures forall i :: 0 <= i < |r| && qs[i].id != id ==> r[i] == qs[i]
  {
    seq(|qs|, i requires 0 <= i < |qs| => if qs[i].id == id then SetField(qs[i], field, value) else qs[i])
  }

  /** Writing back the value a question already has changes nothing. */
  lemma UpdateQuestionSameValue(qs: seq<Question>, i: int, field: Field)
    requires 0 <= i < |qs|
    requires forall j :: 0 <= j < |qs| && qs[j].id == qs[i].id ==> qs[j] == qs[i]
    ensures UpdateQuestion(qs, qs[i].id, field, if field == Title then qs[i].title else qs[i].content) == qs
  {
    var v := if field == Title then qs[i].title else qs[i].content;
    var r := UpdateQuestion(qs, qs[i].id, field, v);
    forall j | 0 <= j < |qs| ensures r[j] == qs[j] {
      if qs[j].id == qs[i].id {
        assert qs[j] == qs[i];
      }
    }
  }

  /** The class of question block `index`: hidden when it is not the first and multi-question mode is off. */
  predicate Hidden(index: int, showMultipleQuestions: bool) {
    index > 0 && !showMultipleQuestions
  }

  /** The number of question blocks on screen when the list has `n` questions. */
  function VisibleCount(n: nat, showMultipleQuestions: bool): (v: nat)
    ensures v <= n
  {
    if n == 0 then 0
    else VisibleCount(n - 1, showMultipleQuestions) + (if Hidden(n - 1, showMultipleQuestions) then 0 else 1)
  }

  /** In multi-question mode every question is shown; otherwise exactly the first one is. */
  lemma {:induction false} VisibleCountIs(n: nat, showMultipleQuestions: bool)
    ensures VisibleCount(n, showMultipleQuestions) == if showMultipleQuestions || n == 0 then n else 1
  {
    if n > 0 {
      VisibleCountIs(n - 1, showMultipleQuestions);
    }
  }

  class Editor {
    var title: string
    var questions: seq<Question>
    var showMultipleQuestions: bool

    /** Once the mount effect has run, the editor always holds at least one question. */
    ghost predicate Valid()
      reads this
    {
      |questions| >= 1
    }

    /** Mounting: the list starts empty and the effect on its length adds one blank question. */
    constructor (stamp: string)
      ensures Valid()
      ensures questions == [NewQuestion(stamp)] && title == "" && showMultipleQuestions
    {
      title := "";
      questions := [];
      showMultipleQuestions := true;
      new;
      RefillIfEmpty(stamp);
    }

    /** The effect on `questions.length`: an empty list gets one blank question, any other is left alone. */
    method RefillIfEmpty(stamp: string)
      modifies this
      ensures old(questions) == [] ==> questions == [NewQuestion(stamp)]
      ensures old(questions) != [] ==> questions == old(questions)
      ensures Valid()
      ensures title == old(title) && showMultipleQuestions == old(showMultipleQuestions)
    {
      if |questions| == 0 {
        AddQuestionClick(stamp);
      }
    }

    method AddQuestionClick(stamp: string)
      modifies this
      ensures questions == AddQuestion(old(questions), stamp)
      ensures Valid()
      ensures title == old(title) && showMultipleQuestions == old(showMultipleQuestions)
    {
      questions := questions + [NewQuestion(stamp)];
    }

    /** The minus button; the list keeps at least one question. */
    method RemoveLastQuestion()
      requires Valid()
      modifies this
      ensures questions == RemoveLast(old(questions))
      ensures Valid()
      ensures title == old(title) && showMultipleQuestions == old(showMultipleQuestions)
    {
      if |questions| > 1 {
        questions := questions[..|questions| - 1];
      }
    }

    method UpdateQuestionField(id: string, field: Field, value: string)
      requires Valid()
      modifies this
      ensures questions == UpdateQuestion(old(questions), id, field, value)
      ensures Valid()
      ensures title == old(title) && showMultipleQuestions == old(showMultipleQuestions)
    {
      questions := UpdateQuestion(questions, id, field, value);
    }

    /** The multi-question switch. */
    method SetShowMultipleQuestions(on: bool)
      modifies this
      ensures showMultipleQuestions == on
      ensures questions == old(questions) && title == old(title)
    {
      showMultipleQuestions := on;
    }

    method SetTitle(value: string)
      modifies this
      ensures title == value
      ensures questions == old(questions) && showMultipleQuestions == old(showMultipleQuestions)
    {
      title := value;
    }
  }
}
