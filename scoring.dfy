/** `calculateResults` (script.js:441-473): one pass over the session's
    questions and answers. The loop is the method `CalculateResults`; the
    function `Score` is its specification, and the lemmas below state what
    the score means. */
module Scoring {
  import opened Wrappers
  import opened QuestionBank

  /** The line shown for one question in the results. `userAnswer` is
      `Some("Not answered")` for an unanswered question and the chosen
      option's text otherwise (None for `undefined`); `correctAnswer` is
      `options[correct]`. */
  datatype QuestionResult = QuestionResult(
    question: string,
    userAnswer: Option<string>,
    correctAnswer: Option<string>,
    isCorrect: bool,
    explanation: string)

  /** What `showResults` receives. `percentage` is None where the browser
      computes `NaN` (a session without questions). */
  datatype Results = Results(
    correctCount: nat,
    wrongCount: nat,
    total: nat,
    percentage: Option<nat>,
    details: seq<QuestionResult>)

  const NotAnswered: string := "Not answered"

  /** `userAnswer === question.correct`: `null` never equals a number. */
  predicate IsCorrect(q: QuestionData, answer: Option<int>)
  {
    answer == Some(q.correct)
  }

  function Grade(q: QuestionData, answer: Option<int>): QuestionResult
  {
    QuestionResult(
      q.text,
      if answer.Some? then OptionAt(q.options, answer.value) else Some(NotAnswered),
      OptionAt(q.options, q.correct),
      IsCorrect(q, answer),
      q.explanation)
  }

  /** The number of positions whose answer is the question's correct index. */
  function CorrectCount(qs: seq<QuestionData>, answers: seq<Option<int>>): (r: nat)
    requires |answers| == |qs|
    ensures r <= |qs|
    decreases |qs|
  {
    if qs == [] then 0
    else
      var n := |qs| - 1;
      CorrectCount(qs[..n], answers[..n]) + (if IsCorrect(qs[n], answers[n]) then 1 else 0)
  }

  /** The number of positions counted wrong: answered with another index,
      or not answered at all. */
  function WrongCount(qs: seq<QuestionData>, answers: seq<Option<int>>): nat
    requires |answers| == |qs|
    decreases |qs|
  {
    if qs == [] then 0
    else
      var n := |qs| - 1;
      WrongCount(qs[..n], answers[..n])
        + (if answers[n].None? || !IsCorrect(qs[n], answers[n]) then 1 else 0)
  }

  /** `Math.round(correct / total * 100)` in exact arithmetic: the integer
      nearest to `100 * correct / total`, halves rounded up. */
  function RoundedPercent(correct: nat, total: nat): (r: nat)
    requires 0 < total && correct <= total
    ensures r <= 100
    ensures 2 * total * r <= 200 * correct + total < 2 * total * r + 2 * total
  {
    HalfUpBounds(correct, total);
    (200 * correct + total) / (2 * total)
  }

  lemma HalfUpBounds(correct: nat, total: nat)
    requires 0 < total && correct <= total
    ensures var q := (200 * correct + total) / (2 * total);
      && q <= 100
      && 2 * total * q <= 200 * correct + total < 2 * total * q + 2 * total
  {
    var x, d := 200 * correct + total, 2 * total;
    var q, m := x / d, x % d;
    assert x == d * q + m && 0 <= m < d;
    assert d * q < d * 101;
    ProductOrder(d, q, 101);
  }

  lemma ProductOrder(d: int, a: int, b: int)
    requires d > 0 && d * a < d * b
    ensures a < b
  {
  }

  function Details(qs: seq<QuestionData>, answers: seq<Option<int>>): (r: seq<QuestionResult>)
    requires |answers| == |qs|
  {
    seq(|qs|, i requires 0 <= i < |qs| => Grade(qs[i], answers[i]))
  }

  /** The results of answering `qs` with `answers`. */
  function Score(qs: seq<QuestionData>, answers: seq<Option<int>>): Results
    requires |answers| == |qs|
  {
    var c := CorrectCount(qs, answers);
    Results(
      c,
      WrongCount(qs, answers),
      |qs|,
      if |qs| == 0 then None else Some(RoundedPercent(c, |qs|)),
      Details(qs, answers))
  }

  /** Every question is counted exactly once: correct, or wrong (which
      includes unanswered). */
  lemma {:induction false} CountsPartition(qs: seq<QuestionData>, answers: seq<Option<int>>)
    requires |answers| == |qs|
    ensures CorrectCount(qs, answers) + WrongCount(qs, answers) == |qs|
    decreases |qs|
  {
    if qs != [] {
      var n := |qs| - 1;
      CountsPartition(qs[..n], answers[..n]);
    }
  }

  /** The correct count is the number of positions whose answer is present
      and equal to the question's correct index. */
  lemma CorrectCountIsCardinality(qs: seq<QuestionData>, answers: seq<Option<int>>)
    requires |answers| == |qs|
    ensures CorrectCount(qs, answers)
         == |set i | 0 <= i < |qs| && answers[i].Some? && answers[i].value == qs[i].correct|
  {
    CorrectPrefixCount(qs, answers, |qs|);
    assert qs[..|qs|] == qs && answers[..|qs|] == answers;
    assert CorrectBelow(qs, answers, |qs|)
        == set i | 0 <= i < |qs| && answers[i].Some? && answers[i].value == qs[i].correct;
  }

  /** The positions below `n` answered with the correct index. */
  ghost function CorrectBelow(qs: seq<QuestionData>, answers: seq<Option<int>>, n: nat): set<int>
    requires |answers| == |qs| && n <= |qs|
  {
    set i | 0 <= i < n && IsCorrect(qs[i], answers[i])
  }

  /** Raising the bound by one adds position `n - 1` exactly when it is
      answered correctly. */
  lemma CorrectBelowStep(qs: seq<QuestionData>, answers: seq<Option<int>>, n: nat)
    requires |answers| == |qs| && 0 < n <= |qs|
    ensures |CorrectBelow(qs, answers, n)|
         == |CorrectBelow(qs, answers, n - 1)| + (if IsCorrect(qs[n - 1], answers[n - 1]) then 1 else 0)
  {
    var below, upTo := CorrectBelow(qs, answers, n - 1), CorrectBelow(qs, answers, n);
    var last := if IsCorrect(qs[n - 1], answers[n - 1]) then {n - 1} else {};
    forall i ensures i in upTo <==> i in below + last {
      if i in upTo && i != n - 1 {
        assert i in below;
      }
    }
    assert upTo == below + last;
    assert below !! last;
  }

  /** The same count over every prefix, by induction on its length. */
  lemma {:induction false} CorrectPrefixCount(qs: seq<QuestionData>, answers: seq<Option<int>>, n: nat)
    requires |answers| == |qs| && n <= |qs|
    ensures CorrectCount(qs[..n], answers[..n]) == |CorrectBelow(qs, answers, n)|
    decreases n
  {
    if n == 0 {
      assert CorrectBelow(qs, answers, 0) == {};
    } else {
      CorrectPrefixCount(qs, answers, n - 1);
      assert qs[..n][..n - 1] == qs[..n - 1];
      assert answers[..n][..n - 1] == answers[..n - 1];
      CorrectBelowStep(qs, answers, n);
    }
  }

  /** A session in which nothing was answered scores nothing correct. */
  lemma {:induction false} UnansweredScoresZero(qs: seq<QuestionData>, answers: seq<Option<int>>)
    requires |answers| == |qs|
    requires forall i :: 0 <= i < |answers| ==> answers[i].None?
    ensures CorrectCount(qs, answers) == 0
    ensures WrongCount(qs, answers) == |qs|
    decreases |qs|
  {
    if qs != [] {
      var n := |qs| - 1;
      UnansweredScoresZero(qs[..n], answers[..n]);
    }
  }

  /** The aggregate counts of a result add up, the percentage is the rounded
      share of correct answers, and each question has one detail line whose
      verdict agrees with the counts. */
  lemma ScoreIsConsistent(qs: seq<QuestionData>, answers: seq<Option<int>>)
    requires |answers| == |qs|
    ensures var r := Score(qs, answers);
      && r.correctCount + r.wrongCount == r.total == |qs|
      && (r.percentage.Some? <==> |qs| > 0)
      && (r.percentage.Some? ==>
            && r.percentage.value <= 100
            && 2 * r.total * r.percentage.value <= 200 * r.correctCount + r.total
            && 200 * r.correctCount + r.total < 2 * r.total * r.percentage.value + 2 * r.total)
      && |r.details| == |qs|
      && r.correctCount == |set i | 0 <= i < |qs| && r.details[i].isCorrect|
  {
    CountsPartition(qs, answers);
    CorrectCountIsCardinality(qs, answers);
    var r := Score(qs, answers);
    assert (set i | 0 <= i < |qs| && r.details[i].isCorrect)
        == (set i | 0 <= i < |qs| && answers[i].Some? && answers[i].value == qs[i].correct);
  }

  /** Extending the prefix by position `n` adds that position's verdict to
      the counts and its line to the details. */
  lemma PrefixStep(qs: seq<QuestionData>, answers: seq<Option<int>>, n: nat)
    requires |answers| == |qs| && n < |qs|
    ensures CorrectCount(qs[..n + 1], answers[..n + 1])
         == CorrectCount(qs[..n], answers[..n]) + (if IsCorrect(qs[n], answers[n]) then 1 else 0)
    ensures WrongCount(qs[..n + 1], answers[..n + 1])
         == WrongCount(qs[..n], answers[..n]) + (if answers[n].None? || !IsCorrect(qs[n], answers[n]) then 1 else 0)
    ensures Details(qs[..n + 1], answers[..n + 1]) == Details(qs[..n], answers[..n]) + [Grade(qs[n], answers[n])]
  {
    assert qs[..n + 1][..n] == qs[..n];
    assert answers[..n + 1][..n] == answers[..n];
  }

  /** `calculateResults` over the session's question objects and answers.
      The caller keeps one answer slot per question (`selectedAnswers` is
      created with the same length as `shuffledQuestions`). */
  method CalculateResults(questions: seq<Question>, answers: seq<Option<int>>) returns (r: Results)
    requires |answers| == |questions|
    ensures r == Score(Snapshot(questions), answers)
  {
    ghost var qs := Snapshot(questions);
    var correctCount: nat := 0;
    var wrongCount: nat := 0;
    var results: seq<QuestionResult> := [];
    var index := 0;
    while index < |questions|
      invariant 0 <= index <= |questions|
      invariant correctCount == CorrectCount(qs[..index], answers[..index])
      invariant wrongCount == WrongCount(qs[..index], answers[..index])
      invariant results == Details(qs[..index], answers[..index])
    {
      var question := questions[index];
      var userAnswer := answers[index];
      var isCorrect := userAnswer == Some(question.correct);
      if userAnswer.Some? {
        if isCorrect {
          correctCount := correctCount + 1;
        } else {
          wrongCount := wrongCount + 1;
        }
      } else {
        wrongCount := wrongCount + 1;
      }
      results := results + [QuestionResult(
        question.text,
        if userAnswer.Some? then OptionAt(question.options, userAnswer.value) else Some(NotAnswered),
        OptionAt(question.options, question.correct),
        isCorrect,
        question.explanation)];
      assert question.Data() == qs[index];
      PrefixStep(qs, answers, index);
      index := index + 1;
    }
    assert qs[..index] == qs;
    assert answers[..index] == answers;
    var totalQuestions := |questions|;
    var percentage := if totalQuestions == 0 then None else Some(RoundedPercent(correctCount, totalQuestions));
    r := Results(correctCount, wrongCount, totalQuestions, percentage, results);
  }
}
