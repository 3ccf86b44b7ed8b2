/** Whole sessions driven through the controller's handlers, on the built-in
    "math" subject (two questions). Each states what a user sees at the end. */
module Scenarios {
  import opened Wrappers
  import opened QuestionBank
  import opened Scoring
  import opened Session
  import opened SampleData

  /** Two questions, the first answered with its correct index and the
      second left unanswered: one right, one wrong, 50%. */
  lemma OneRightOneUnanswered(qs: seq<QuestionData>, answers: seq<Option<int>>)
    requires |qs| == 2 && answers == [Some(qs[0].correct), None]
    ensures Score(qs, answers).correctCount == 1 && Score(qs, answers).wrongCount == 1
    ensures Score(qs, answers).total == 2 && Score(qs, answers).percentage == Some(50)
  {
    assert qs[..1][..0] == [] && answers[..1][..0] == [];
    assert CorrectCount(qs[..1], answers[..1]) == 1;
    assert WrongCount(qs[..1], answers[..1]) == 0;
  }

  /** Answering the first question correctly, leaving the second unanswered
      and confirming the submit scores one right, one wrong, 50%. */
  method HalfRightScenario() returns (result: Results)
    ensures result.correctCount == 1 && result.wrongCount == 1 && result.total == 2
    ensures result.percentage == Some(50)
  {
    var bank := MathBank();
    var session := new TestSession(bank);
    var started := session.StartTest("math");
    var first := session.shuffledQuestions[0];
    assert first in bank["math"] by {
      assert first in multiset(session.shuffledQuestions);
    }
    session.SelectOption(first.correct);
    var submitted := session.SubmitTest(true);
    OneRightOneUnanswered(Snapshot(session.shuffledQuestions), session.selectedAnswers);
    result := submitted.value;
  }

  /** With no answers, the clock runs 9000 ticks and then submits: confirmed,
      every question is wrong; declined, the test stays active with the
      clock stopped at zero. */
  method TimerExpiryScenario(confirmSubmit: bool) returns (result: Option<Results>, active: bool, clockRunning: bool, left: nat)
    ensures confirmSubmit ==>
      && result.Some? && !active
      && result.value.correctCount == 0 && result.value.wrongCount == result.value.total == 2
    ensures !confirmSubmit ==> result.None? && active && !clockRunning && left == 0
  {
    var bank := MathBank();
    var session := new TestSession(bank);
    var started := session.StartTest("math");
    assert session.selectedAnswers == [None, None];
    result := None;
    var k := 0;
    while k < TestDuration
      invariant 0 <= k <= TestDuration
      invariant session.Valid() && |session.shuffledQuestions| == 2
      invariant session.selectedAnswers == [None, None]
      invariant session.timeRemaining == TestDuration - k
      invariant session.timerRunning == (k < TestDuration)
      invariant k < TestDuration ==> session.isTestActive && result.None?
      invariant k == TestDuration ==>
        if confirmSubmit then
          && !session.isTestActive
          && result == Some(Score(Snapshot(session.shuffledQuestions), session.selectedAnswers))
        else session.isTestActive && result.None?
    {
      var clock, colour;
      clock, colour, result := session.Tick(confirmSubmit);
      k := k + 1;
    }
    if confirmSubmit {
      UnansweredScoresZero(Snapshot(session.shuffledQuestions), session.selectedAnswers);
    }
    active, clockRunning, left := session.isTestActive, session.timerRunning, session.timeRemaining;
  }

  /** Four fullscreen exits during one test: two warnings, then the third
      fails the test, and the fourth finds no test to warn about. */
  method FullscreenExitScenario() returns (warnings: seq<bool>, failures: seq<bool>)
    ensures warnings == [true, true, true, false]
    ensures failures == [false, false, true, false]
  {
    var bank := MathBank();
    var session := new TestSession(bank);
    var started := session.StartTest("math");
    var w1, f1 := session.HandleFullscreenChange(false);
    var w2, f2 := session.HandleFullscreenChange(false);
    var w3, f3 := session.HandleFullscreenChange(false);
    var w4, f4 := session.HandleFullscreenChange(false);
    warnings, failures := [w1, w2, w3, w4], [f1, f2, f3, f4];
  }
}
