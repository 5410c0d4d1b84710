/** The quiz screen: questions are loaded once, an option click only stages a choice, and
    "Next"/"Finish Quiz" commits it, scores it and either moves on or reports the result,
    which is then saved as an attempt document. */
module Quiz {
  import opened Kotlin
  import opened Attempts

  /** A question document as deserialised from the "questions" collection. */
  datatype QuizQuestion = QuizQuestion(question: KString, options: seq<KString>, correctIndex: Int32)

  /** The questions query is `limit(5)`. */
  const QuestionLimit: nat := 5

  /** `collection("questions").limit(5)`: the first five questions in store order (no sampling). */
  function LoadQuestions(collection: seq<QuizQuestion>): (qs: seq<QuizQuestion>)
    ensures |qs| <= QuestionLimit
    ensures |qs| == if |collection| <= QuestionLimit then |collection| else QuestionLimit
    ensures |qs| <= |collection| && qs == collection[..|qs|]
  {
    Take(collection, QuestionLimit)
  }

  /** Points earned by the committed answers: one for each answer equal to its question's
      correctIndex, nothing otherwise. */
  function Points(questions: seq<QuizQuestion>, answers: seq<int>): (p: nat)
    requires |answers| <= |questions|
    ensures p <= |answers|
  {
    if answers == [] then 0
    else
      var n := |answers| - 1;
      Points(questions, answers[..n]) + (if answers[n] == questions[n].correctIndex then 1 else 0)
  }

  /** Committing one more answer adds its point, if any, to those already earned. */
  lemma PointsAppend(questions: seq<QuizQuestion>, answers: seq<int>, choice: int)
    requires |answers| < |questions|
    ensures Points(questions, answers + [choice])
         == Points(questions, answers) + (if choice == questions[|answers|].correctIndex then 1 else 0)
  {
    assert (answers + [choice])[..|answers|] == answers;
  }

  /** Answering every question correctly gives full marks. */
  lemma {:induction false} AllCorrectFullMarks(questions: seq<QuizQuestion>, answers: seq<int>)
    requires |answers| <= |questions|
    requires forall i | 0 <= i < |answers| :: answers[i] == questions[i].correctIndex
    ensures Points(questions, answers) == |answers|
  {
    if answers != [] {
      AllCorrectFullMarks(questions, answers[..|answers| - 1]);
    }
  }

  /** Answering every question wrongly gives nothing. */
  lemma {:induction false} AllWrongScoresZero(questions: seq<QuizQuestion>, answers: seq<int>)
    requires |answers| <= |questions|
    requires forall i | 0 <= i < |answers| :: answers[i] != questions[i].correctIndex
    ensures Points(questions, answers) == 0
  {
    if answers != [] {
      AllWrongScoresZero(questions, answers[..|answers| - 1]);
    }
  }

  /** What the Next/Finish click reports to the screen. */
  datatype CommitOutcome =
    | Advanced
      /** `onFinish(score, questions.size)` */
    | Finished(score: int, total: int)

  /** The state of one quiz screen. */
  class QuizSession {
    var questions: seq<QuizQuestion>
    var isLoading: bool
    var currentIndex: int
    /** The staged choice; -1 when none. */
    var selectedOption: int
    var score: int
    /** onFinish has run: the screen has handed over to the home screen and takes no more input. */
    var finished: bool
    /** The committed choices, one per answered question. */
    ghost var answers: seq<int>

    ghost predicate Valid()
      reads this
    {
      && |questions| <= QuestionLimit
      && (isLoading ==> questions == [] && !finished)
      && 0 <= currentIndex
      && (questions != [] ==> currentIndex < |questions|)
      && (questions == [] ==> currentIndex == 0)
      && (finished ==> currentIndex == |questions| - 1)
      && |answers| == currentIndex + (if finished then 1 else 0)
      && |answers| <= |questions|
      && score == Points(questions, answers)
      && 0 <= score <= |answers|
      && (selectedOption == -1
          || (questions != [] && 0 <= selectedOption < |questions[currentIndex].options|))
    }

    /** A question is on screen: loading is over and the list is not empty. */
    predicate ShowsQuestion(): (shown: bool)
      reads this
      ensures shown && Valid() ==> 0 <= currentIndex < |questions|
    {
      !isLoading && questions != []
    }

    /** `questions[currentIndex]`: always in bounds while a question is shown. */
    function Current(): (q: QuizQuestion)
      reads this
      requires Valid() && ShowsQuestion()
      ensures q in questions
    {
      questions[currentIndex]
    }

    /** The `enabled` guard of the Next/Finish button. */
    predicate CanCommit(): (enabled: bool)
      reads this
      ensures enabled && Valid() ==>
        !isLoading && questions != [] && 0 <= selectedOption < |questions[currentIndex].options|
    {
      selectedOption != -1
    }

    /** The screen's initial state, while the questions load. */
    constructor ()
      ensures Valid()
      ensures isLoading && questions == [] && currentIndex == 0 && selectedOption == -1 && score == 0
      ensures !finished && answers == []
    {
      questions := [];
      isLoading := true;
      currentIndex := 0;
      selectedOption := -1;
      score := 0;
      finished := false;
      answers := [];
    }

    /** The success listener of the questions query. */
    method OnQuestionsLoaded(collection: seq<QuizQuestion>)
      requires Valid() && isLoading
      modifies this
      ensures Valid()
      ensures questions == LoadQuestions(collection) && !isLoading
      ensures currentIndex == 0 && selectedOption == -1 && score == 0 && !finished && answers == []
    {
      questions := LoadQuestions(collection);
      isLoading := false;
    }

    /** The failure listener: the list stays empty, so the screen shows "No questions found". */
    method OnLoadFailed()
      requires Valid() && isLoading
      modifies this
      ensures Valid()
      ensures questions == [] && !isLoading && !ShowsQuestion()
      ensures currentIndex == 0 && selectedOption == -1 && score == 0 && !finished && answers == []
    {
      isLoading := false;
    }

    /** Clicking the card of option `index`: stages the choice and nothing else. */
    method SelectOption(index: int)
      requires Valid() && ShowsQuestion() && !finished
      requires 0 <= index < |Current().options|
      modifies this`selectedOption
      ensures Valid()
      ensures selectedOption == index && CanCommit()
      ensures score == old(score) && currentIndex == old(currentIndex)
    {
      selectedOption := index;
    }

    /** The Next/Finish click: scores the staged choice, then moves to the next question and
        clears the choice, or on the last question reports the score and the question count. */
    method Commit() returns (outcome: CommitOutcome)
      requires Valid() && ShowsQuestion() && !finished && CanCommit()
      modifies this`score, this`currentIndex, this`selectedOption, this`finished, this`answers
      ensures Valid()
      ensures answers == old(answers) + [old(selectedOption)]
      ensures score == old(score) + (if old(selectedOption) == old(Current()).correctIndex then 1 else 0)
      ensures old(currentIndex) < |questions| - 1 ==>
        && outcome == Advanced
        && currentIndex == old(currentIndex) + 1
        && selectedOption == -1
        && !finished
      ensures old(currentIndex) == |questions| - 1 ==>
        && outcome == Finished(score, |questions|)
        && currentIndex == old(currentIndex)
        && selectedOption == old(selectedOption)
        && finished
      ensures outcome.Finished? ==>
        && |answers| == |questions| == outcome.total
        && outcome.score == Points(questions, answers)
        && 0 <= outcome.score <= outcome.total <= QuestionLimit
        && 1 <= outcome.total
    {
      PointsAppend(questions, answers, selectedOption);
      answers := answers + [selectedOption];
      if selectedOption == questions[currentIndex].correctIndex {
        score := score + 1;
      }
      if currentIndex == |questions| - 1 {
        finished := true;
        outcome := Finished(score, |questions|);
      } else {
        currentIndex := currentIndex + 1;
        selectedOption := -1;
        outcome := Advanced;
      }
    }
  }

  /** `saveResult`: the attempt document written for the signed-in user, or nothing when
      nobody is signed in. The creation time is the clock reading passed in. */
  function SaveResult(currentUser: Option<KString>, score: Int32, total: Int32, now: Int64): (r: Option<AttemptDoc>)
    ensures r.None? <==> currentUser.None?
    ensures r.Some? ==> r.value == AttemptDoc(Some(currentUser.value), Some(score), Some(total), Some(now))
  {
    match currentUser
    case None => None
    case Some(uid) => Some(AttemptDoc(Some(uid), Some(score), Some(total), Some(now)))
  }

  /** Three questions whose correct options are 0, 1 and 2, answered 0, 1, 1: two points of three. */
  method ThreeQuestionScenario()
  {
    var opts: seq<KString> := [[65], [66], [67]];
    var qs := [QuizQuestion([], opts, 0), QuizQuestion([], opts, 1), QuizQuestion([], opts, 2)];
    var s := new QuizSession();
    s.OnQuestionsLoaded(qs);
    assert s.questions == qs;
    assert s.Current() == qs[0];
    s.SelectOption(2);
    s.SelectOption(0);
    var o := s.Commit();
    assert o == Advanced && s.score == 1 && s.currentIndex == 1;
    assert s.Current() == qs[1];
    s.SelectOption(1);
    o := s.Commit();
    assert o == Advanced && s.score == 2 && s.currentIndex == 2;
    assert s.Current() == qs[2];
    s.SelectOption(1);
    o := s.Commit();
    assert o == Finished(2, 3);
  }
}
