/**
 * The quiz page: one question at a time, an answer is submitted and scored,
 * then the next question follows; at the end a rounded percentage, a tier
 * message and a per-question summary are shown.
 */
module LearningQuiz {
  import opened Wrappers
  import opened Seqs

  datatype QuizOption = QuizOption(id: string, correct: bool)

  datatype Question = Question(id: nat, options: seq<QuizOption>)

  function Opts(correctId: string): seq<QuizOption> {
    [QuizOption("a", correctId == "a"), QuizOption("b", correctId == "b"),
     QuizOption("c", correctId == "c"), QuizOption("d", correctId == "d")]
  }

  /** The three questions, whose correct options are b, c and b. */
  const Questions: seq<Question> := [Question(1, Opts("b")), Question(2, Opts("c")), Question(3, Opts("b"))]

  /** `options.find(o => o.id === selected)?.correct`: an unknown or empty selection is not correct. */
  function IsCorrect(q: Question, selected: string): (c: bool)
    ensures c <==> exists k :: 0 <= k < |q.options| && q.options[k].id == selected && q.options[k].correct
                              && forall j :: 0 <= j < k ==> q.options[j].id != selected
  {
    FindCorrect(q.options, selected)
  }

  function FindCorrect(opts: seq<QuizOption>, selected: string): (c: bool)
    ensures c <==> exists k :: 0 <= k < |opts| && opts[k].id == selected && opts[k].correct
                              && forall j :: 0 <= j < k ==> opts[j].id != selected
  {
    if opts == [] then false
    else if opts[0].id == selected then opts[0].correct
    else
      var c := FindCorrect(opts[1..], selected);
      assert c ==> exists k :: 1 <= k < |opts| && opts[k].id == selected && opts[k].correct
                               && forall j :: 0 <= j < k ==> opts[j].id != selected by {
        if c {
          var k :| 0 <= k < |opts[1..]| && opts[1..][k].id == selected && opts[1..][k].correct
                   && forall j :: 0 <= j < k ==> opts[1..][j].id != selected;
          assert forall j :: 1 <= j < k + 1 ==> opts[j].id == opts[1..][j - 1].id;
        }
      }
      c
  }

  /** Exactly one option of each question is correct: b, c and b. */
  lemma AnswerKey()
    ensures IsCorrect(Questions[0], "b") && IsCorrect(Questions[1], "c") && IsCorrect(Questions[2], "b")
    ensures forall s :: s != "b" ==> !IsCorrect(Questions[0], s) && !IsCorrect(Questions[2], s)
    ensures forall s :: s != "c" ==> !IsCorrect(Questions[1], s)
  {
    forall s ensures (IsCorrect(Questions[0], s) <==> s == "b") && (IsCorrect(Questions[2], s) <==> s == "b") {
      OnlyKeyIsCorrect("b", s);
    }
    forall s ensures IsCorrect(Questions[1], s) <==> s == "c" {
      OnlyKeyIsCorrect("c", s);
    }
  }

  /** In the options of a question whose key is `good`, exactly `good` is correct. */
  lemma OnlyKeyIsCorrect(good: string, s: string)
    requires good == "b" || good == "c"
    ensures FindCorrect(Opts(good), s) <==> s == good
  {
    var opts := Opts(good);
    var o1, o2, o3 := opts[1..], opts[2..], opts[3..];
    assert o1[1..] == o2 && o2[1..] == o3 && o3[1..] == [];
    assert !FindCorrect(o3[1..], s);
    assert FindCorrect(o3, s) == false;
    assert FindCorrect(o2, s) == (s == "c" && good == "c");
    assert FindCorrect(o1, s) == (s == good);
  }

  /** `Math.round(score / count * 100)`, as the nearest integer with halves rounded up. */
  function FinalScore(score: nat, count: nat): (p: int)
    requires count > 0
    ensures 2 * count * p <= 200 * score + count < 2 * count * (p + 1)
  {
    (200 * score + count) / (2 * count)
  }

  lemma FinalScoreRange(score: nat, count: nat)
    requires 0 < count && score <= count
    ensures 0 <= FinalScore(score, count) <= 100
    ensures score == count ==> FinalScore(score, count) == 100
    ensures score == 0 ==> FinalScore(score, count) == 0
  {
    var p := FinalScore(score, count);
    assert 2 * count * p < 2 * count * 101 by {
      assert 200 * score <= 200 * count;
    }
    CancelFactor(2 * count, p, 101);
    assert 0 <= 2 * count * (p + 1);
    CancelFactor(2 * count, -1, p + 1);
    if score == count {
      assert 2 * count * 100 < 2 * count * (p + 1);
      CancelFactor(2 * count, 100, p + 1);
    }
    if score == 0 {
      assert 2 * count * p < 2 * count * 1;
      CancelFactor(2 * count, p, 1);
    }
  }

  /** A positive factor cancels from both sides of a strict inequality. */
  lemma CancelFactor(d: int, a: int, b: int)
    requires d > 0 && d * a < d * b
    ensures a < b
  {
    assert d * (b - a) > 0;
  }

  /** With three questions the percentage is 0, 33, 67 or 100. */
  lemma ThreeQuestionScores()
    ensures FinalScore(0, 3) == 0 && FinalScore(1, 3) == 33 && FinalScore(2, 3) == 67 && FinalScore(3, 3) == 100
  {
  }

  datatype Tier = Mastered | GoodJob | KeepLearning

  function TierOf(finalScore: int): Tier {
    if finalScore >= 80 then Mastered else if finalScore >= 60 then GoodJob else KeepLearning
  }

  /** With three questions: all correct is mastery, two is "good", fewer is "keep learning". */
  lemma TiersForThreeQuestions(score: nat)
    requires score <= 3
    ensures TierOf(FinalScore(score, 3)) == Mastered <==> score == 3
    ensures TierOf(FinalScore(score, 3)) == GoodJob <==> score == 2
    ensures TierOf(FinalScore(score, 3)) == KeepLearning <==> score <= 1
  {
  }

  /** The summary's marks: question `idx` is shown as correct exactly when `idx < score`. */
  function SummaryMarks(score: nat, count: nat): (marks: seq<bool>)
    ensures |marks| == count
    ensures forall idx :: 0 <= idx < count ==> (marks[idx] <==> idx < score)
  {
    seq(count, idx requires 0 <= idx < count => idx < score)
  }

  /**
   * The summary counts the right number of correct answers but puts them on
   * the first questions: answering only the second question correctly
   * shows the first as correct and the second as wrong.
   */
  lemma SummaryIgnoresWhichAnswersWereRight()
    ensures var answers := [false, true, false];
            Count(answers, (b: bool) => b) == 1 && SummaryMarks(1, 3) == [true, false, false] != answers
  {
    var answers := [false, true, false];
    assert answers[1..][1..] == [false];
  }

  /** The page's state. */
  class Quiz {
    var current: nat
    var selected: string
    var score: nat
    var showResult: bool
    var isComplete: bool

    /** The questions answered so far: those before the current one, and the current one once its result shows. */
    function Submitted(): nat
      reads this
    {
      current + if showResult then 1 else 0
    }

    /** One point at most per submitted answer, within the question list; completion happens only on the last question. */
    predicate Valid()
      reads this
    {
      current < |Questions| && score <= Submitted() && (isComplete ==> showResult && current == |Questions| - 1)
    }

    constructor ()
      ensures current == 0 && selected == "" && score == 0 && !showResult && !isComplete && Valid()
    {
      current := 0;
      selected := "";
      score := 0;
      showResult := false;
      isComplete := false;
    }

    /** Choosing an option; the options are disabled while a result shows. */
    method Select(option: string)
      requires Valid()
      modifies this
      ensures Valid()
      ensures selected == if old(showResult) || old(isComplete) then old(selected) else option
      ensures current == old(current) && score == old(score) && showResult == old(showResult)
      ensures isComplete == old(isComplete)
    {
      if !showResult && !isComplete {
        selected := option;
      }
    }

    /** `handleSubmit`, offered only while no result shows and an answer is selected. */
    method Submit()
      requires Valid()
      modifies this
      ensures Valid()
      ensures old(showResult) || old(selected) == "" || old(isComplete) ==>
                score == old(score) && showResult == old(showResult)
      ensures !(old(showResult) || old(selected) == "" || old(isComplete)) ==>
                && showResult
                && score == old(score) + (if IsCorrect(Questions[current], selected) then 1 else 0)
      ensures current == old(current) && selected == old(selected) && isComplete == old(isComplete)
    {
      if showResult || selected == "" || isComplete {
        return;
      }
      if IsCorrect(Questions[current], selected) {
        score := score + 1;
      }
      showResult := true;
    }

    /** `handleNext`, offered once the result shows: the next question, or completion after the last. */
    method Next()
      requires Valid()
      modifies this
      ensures Valid()
      ensures !old(showResult) || old(isComplete) ==>
                current == old(current) && selected == old(selected) && showResult == old(showResult)
                && isComplete == old(isComplete)
      ensures old(showResult) && !old(isComplete) && old(current) < |Questions| - 1 ==>
                current == old(current) + 1 && selected == "" && !showResult && !isComplete
      ensures old(showResult) && !old(isComplete) && old(current) == |Questions| - 1 ==>
                current == old(current) && isComplete && showResult
      ensures score == old(score)
    {
      if !showResult || isComplete {
        return;
      }
      if current < |Questions| - 1 {
        current := current + 1;
        selected := "";
        showResult := false;
      } else {
        isComplete := true;
      }
    }

    /** Once complete, every question has been answered and the score is at most their number. */
    lemma CompleteScoreBound()
      requires Valid() && isComplete
      ensures score <= |Questions|
      ensures 0 <= FinalScore(score, |Questions|) <= 100
    {
      FinalScoreRange(score, |Questions|);
    }
  }
}
