/** The quiz page of client/pages/QCM.tsx: one question at a time; a chosen
    answer is recorded by "next", the verdict is revealed, and a delayed step
    moves to the following question or finishes the quiz; the score is the
    number of recorded answers equal to their question's `correct`, and 70
    percent passes. */
module Qcm {
  import opened Common
  import opened QcmQuestions

  /** The score needed to see the "passed" message and colour. */
  const PassThreshold: nat := 70

  /** `getQuestionText`: the page language's text, else French, else the
      first one, else "". */
  function GetQuestionText(text: LangRecord<string>, language: string): (r: string)
    ensures Lookup(text, language).Some? && Lookup(text, language).value != "" ==> r == Lookup(text, language).value
    ensures ((Lookup(text, language).None? || Lookup(text, language).value == "")
             && Lookup(text, "fr").Some? && Lookup(text, "fr").value != "") ==> r == Lookup(text, "fr").value
    ensures r != "" ==> exists k :: 0 <= k < |text| && text[k].1 == r
    ensures r == "" <==> ((Lookup(text, language).None? || Lookup(text, language).value == "")
                          && (Lookup(text, "fr").None? || Lookup(text, "fr").value == "")
                          && (text == [] || text[0].1 == ""))
  {
    LookupFindsEntry(text, language);
    LookupFindsEntry(text, "fr");
    Resolve(text, language, TextTruthy, "")
  }

  /** `getQuestionOptions`: the same fallback over option lists, else []. */
  function GetQuestionOptions(options: LangRecord<seq<string>>, language: string): (r: seq<string>)
    ensures Lookup(options, language).Some? ==> r == Lookup(options, language).value
    ensures Lookup(options, language).None? && Lookup(options, "fr").Some? ==> r == Lookup(options, "fr").value
    ensures options == [] ==> r == []
    ensures options != [] ==> exists k :: 0 <= k < |options| && options[k].1 == r
  {
    LookupFindsEntry(options, language);
    LookupFindsEntry(options, "fr");
    Resolve(options, language, ListTruthy, [])
  }

  /** Every question of the bank shows a non-empty text and four options in
      any page language. */
  lemma DisplayedQuestionIsComplete(q: Question, language: string)
    requires q in GetAllQuestions()
    ensures GetQuestionText(q.question, language) != ""
    ensures |GetQuestionOptions(q.options, language)| == 4
    ensures 0 <= q.correct < |GetQuestionOptions(q.options, language)|
  {
    CorrectIndexesEveryOptionList();
    NormalisedOptionsKeepCorrect(q, language);
  }

  /** `calculateScore`: a left fold over the recorded answers adding one for
      each answer equal to its question's `correct`. */
  function Score(answers: seq<int>, questions: seq<Question>): (r: nat)
    requires |answers| <= |questions|
    ensures r <= |answers|
  {
    if answers == [] then 0
    else
      var n := |answers| - 1;
      Score(answers[..n], questions) + (if answers[n] == questions[n].correct then 1 else 0)
  }

  /** The indices answered correctly, defined without the fold. */
  function CorrectIndices(answers: seq<int>, questions: seq<Question>): set<nat>
    requires |answers| <= |questions|
  {
    set i: nat | i < |answers| && answers[i] == questions[i].correct
  }

  /** The fold counts exactly the correctly answered questions. */
  lemma {:induction false} ScoreCountsCorrectAnswers(answers: seq<int>, questions: seq<Question>)
    requires |answers| <= |questions|
    ensures Score(answers, questions) == |CorrectIndices(answers, questions)|
  {
    if answers != [] {
      var n := |answers| - 1;
      ScoreCountsCorrectAnswers(answers[..n], questions);
      var before := CorrectIndices(answers[..n], questions);
      if answers[n] == questions[n].correct {
        assert CorrectIndices(answers, questions) == before + {n};
      } else {
        assert CorrectIndices(answers, questions) == before;
      }
    }
  }

  /** Answering every question with its `correct` index gives full marks. */
  lemma {:induction false} AllCorrectGivesFullScore(answers: seq<int>, questions: seq<Question>)
    requires |answers| <= |questions|
    requires forall i :: 0 <= i < |answers| ==> answers[i] == questions[i].correct
    ensures Score(answers, questions) == |answers|
  {
    if answers != [] {
      AllCorrectGivesFullScore(answers[..|answers| - 1], questions);
    }
  }

  /** `scorePercentage`: 0 until the quiz is finished, then the rounded share
      of correct answers. */
  function ScorePercentage(finished: bool, score: nat, total: nat): (r: nat)
    requires total > 0 && score <= total
    ensures r <= 100
    ensures !finished ==> r == 0
    ensures finished && score == total ==> r == 100
  {
    if finished then Percent(score, total) else 0
  }

  /** The pass test in integers: at least 69.5 percent of the questions
      answered correctly, that is 200 * score >= 139 * total. */
  lemma PassedIff(score: nat, total: nat)
    requires total > 0 && score <= total
    ensures ScorePercentage(true, score, total) >= PassThreshold <==> 200 * score >= 139 * total
  {
    var r := Percent(score, total);
    if r >= 70 {
      MulMonotone(139, 2 * r - 1, total);
    } else {
      MulMonotone(2 * r + 1, 139, total);
    }
  }

  /** With the eight questions of a driver's quiz, six correct answers pass
      and five do not. */
  lemma DriverQuizPassMark()
    ensures ScorePercentage(true, 6, 8) == 75 && ScorePercentage(true, 5, 8) == 63
  {
  }

  class QuizPage {
    var questions: seq<Question>
    var currentQuestion: nat
    var answers: seq<int>
    var selectedAnswer: Option<int>
    var showResult: bool
    var isFinished: bool
    /** The question index captured by the reveal timer that `handleNext`
        started, until the timer fires. */
    var pending: Option<nat>

    /** The page as rendered once questions are loaded: a valid question is
        shown and answers are recorded without gaps. */
    ghost predicate Valid()
      reads this
    {
      && |questions| > 0
      && currentQuestion < |questions|
      && currentQuestion <= |answers| <= currentQuestion + 1
      && (pending.Some? ==> pending.value == currentQuestion && |answers| == currentQuestion + 1)
    }

    /** Mount: the stored profile (default "driver") selects the pool. */
    constructor (storedProfile: Option<string>)
      ensures Valid()
      ensures multiset(questions) == multiset(Pool(OrElse(storedProfile, "driver")))
      ensures currentQuestion == 0 && answers == [] && selectedAnswer.None?
      ensures !showResult && !isFinished && pending.None?
    {
      var qs := GetQuestionsForProfile(OrElse(storedProfile, "driver"));
      questions := qs;
      currentQuestion := 0;
      answers := [];
      selectedAnswer := None;
      showResult := false;
      isFinished := false;
      pending := None;
    }

    method HandleAnswerSelect(answerIndex: int)
      modifies this`selectedAnswer
      ensures selectedAnswer == Some(answerIndex)
    {
      selectedAnswer := Some(answerIndex);
    }

    /** Records the selected answer for the current question, reveals the
        verdict and starts the reveal timer; nothing happens without a
        selection. The result says whether the recorded answer is right. */
    method HandleNext() returns (isCorrect: Option<bool>)
      requires Valid()
      modifies this`answers, this`showResult, this`pending
      ensures Valid()
      ensures old(selectedAnswer).None? ==>
        isCorrect.None? && answers == old(answers) && showResult == old(showResult) && pending == old(pending)
      ensures old(selectedAnswer).Some? ==>
        && answers == old(answers)[..currentQuestion] + [selectedAnswer.value]
        && isCorrect == Some(selectedAnswer.value == questions[currentQuestion].correct)
        && showResult
        && pending == Some(currentQuestion)
    {
      isCorrect := None;
      if selectedAnswer.Some? {
        var answer := selectedAnswer.value;
        if currentQuestion < |answers| {
          answers := answers[currentQuestion := answer];
        } else {
          answers := answers + [answer];
        }
        isCorrect := Some(answer == questions[currentQuestion].correct);
        showResult := true;
        pending := Some(currentQuestion);
      }
    }

    /** The reveal timer firing: from the captured index, move to the next
        question (clearing the selection and the verdict), or finish after
        the last one. */
    method Advance()
      requires Valid()
      modifies this`currentQuestion, this`selectedAnswer, this`showResult, this`isFinished, this`pending
      ensures Valid()
      ensures pending.None?
      ensures old(pending).None? ==>
        currentQuestion == old(currentQuestion) && selectedAnswer == old(selectedAnswer)
        && showResult == old(showResult) && isFinished == old(isFinished)
      ensures old(pending).Some? && old(currentQuestion) < |questions| - 1 ==>
        currentQuestion == old(currentQuestion) + 1 && selectedAnswer.None? && !showResult
        && isFinished == old(isFinished)
      ensures old(pending).Some? && old(currentQuestion) == |questions| - 1 ==>
        currentQuestion == old(currentQuestion) && isFinished
        && selectedAnswer == old(selectedAnswer) && showResult == old(showResult)
    {
      if pending.Some? {
        var captured := pending.value;
        if captured < |questions| - 1 {
          currentQuestion := captured + 1;
          selectedAnswer := None;
          showResult := false;
        } else {
          isFinished := true;
        }
        pending := None;
      }
    }

    function CalculateScore(): (r: nat)
      requires Valid()
      reads this
      ensures r == |CorrectIndices(answers, questions)| && r <= |questions|
    {
      ScoreCountsCorrectAnswers(answers, questions);
      Score(answers, questions)
    }

    function GetScorePercentage(): (r: nat)
      requires Valid()
      reads this
      ensures r <= 100 && (!isFinished ==> r == 0)
    {
      ScorePercentage(isFinished, CalculateScore(), |questions|)
    }

    /** The pass message and colour. */
    predicate Passed()
      requires Valid()
      reads this
    {
      GetScorePercentage() >= PassThreshold
    }
  }

  /** A whole attempt through the page's handlers: each choice is selected,
      confirmed with "next" and followed by the reveal timer. The quiz ends
      finished, with exactly the choices recorded in order. */
  method TakeQuiz(page: QuizPage, choices: seq<int>)
    requires page.Valid()
    requires page.currentQuestion == 0 && page.answers == [] && page.pending.None? && !page.isFinished
    requires |choices| == |page.questions|
    modifies page
    ensures page.Valid() && page.isFinished
    ensures page.answers == choices
    ensures page.CalculateScore() == |CorrectIndices(choices, page.questions)|
  {
    var i := 0;
    while i < |choices|
      invariant 0 <= i <= |choices|
      invariant page.Valid() && page.questions == old(page.questions)
      invariant page.pending.None?
      invariant i < |choices| ==> page.currentQuestion == i && !page.isFinished
      invariant i == |choices| ==> page.isFinished
      invariant page.answers == choices[..i]
      decreases |choices| - i
    {
      page.HandleAnswerSelect(choices[i]);
      var _ := page.HandleNext();
      assert choices[..i + 1] == choices[..i] + [choices[i]];
      page.Advance();
      i := i + 1;
    }
    assert choices[..i] == choices;
  }
}
