/** The test-session controller (script.js:1-10 and the handlers that change
    its globals). The globals become the fields of one `TestSession` object;
    every event handler is a method. The browser's side of each handler
    (rendering, fullscreen requests, `alert`) is left out; `confirm` is a
    boolean parameter, and the interval timer is the flag `timerRunning` with
    one call of `Tick` per second that it fires. */
module Session {
  import opened Wrappers
  import opened QuestionBank
  import opened Shuffling
  import opened Scoring
  import opened Display

  /** Seconds on the clock when a test starts (script.js:200, 555). */
  const TestDuration: nat := 9000
  /** Fullscreen exits that fail the test (script.js:287). */
  const MaxWarnings: nat := 3

  /** The value of every session field at one moment. */
  datatype SessionState = SessionState(
    currentTest: Option<string>,
    currentQuestionIndex: nat,
    selectedAnswers: seq<Option<int>>,
    warningCount: nat,
    timeRemaining: nat,
    isTestActive: bool,
    shuffledQuestions: seq<Question>,
    timerRunning: bool)

  /** What `resetTestState` leaves: the subject, position, answers, warnings,
      clock and question list are cleared; the active flag and the timer are
      not touched. */
  function Cleared(s: SessionState): SessionState
  {
    s.(currentTest := None, currentQuestionIndex := 0, selectedAnswers := [],
       warningCount := 0, timeRemaining := TestDuration, shuffledQuestions := [])
  }

  /** The position after `previousQuestion`. */
  function PrevIndex(index: nat): nat
  {
    if index > 0 then index - 1 else index
  }

  /** The position after `nextQuestion` among `count` questions. */
  function NextIndex(index: nat, count: nat): nat
  {
    if index < count - 1 then index + 1 else index
  }

  /** The navigation buttons tell the truth: Previous is disabled exactly
      when `previousQuestion` would not move, and Submit replaces Next exactly
      when `nextQuestion` would not move; both moves stay on a question. */
  lemma NavigationButtonsMatchMoves(index: nat, count: nat)
    requires index < count
    ensures PrevIndex(index) < count && NextIndex(index, count) < count
    ensures PrevDisabled(index) <==> PrevIndex(index) == index
    ensures IsLastQuestion(index, count) <==> NextIndex(index, count) == index
  {
  }

  /** `selectedAnswers[index] = optionIndex`, done only when the clicked
      option button exists (there are `optionCount` of them); otherwise
      `selectOption` throws before storing anything. */
  function RecordAnswer(answers: seq<Option<int>>, index: nat, optionCount: nat, optionIndex: int): (r: seq<Option<int>>)
    ensures |r| == |answers|
    ensures forall k :: 0 <= k < |answers| && k != index ==> r[k] == answers[k]
    ensures index < |answers| && 0 <= optionIndex < optionCount ==> r[index] == Some(optionIndex)
    ensures !(0 <= optionIndex < optionCount) ==> r == answers
  {
    if index < |answers| && 0 <= optionIndex < optionCount then answers[index := Some(optionIndex)] else answers
  }

  /** Choosing the same option twice is the same as choosing it once. */
  lemma RecordAnswerIdempotent(answers: seq<Option<int>>, index: nat, optionCount: nat, optionIndex: int)
    ensures var once := RecordAnswer(answers, index, optionCount, optionIndex);
      RecordAnswer(once, index, optionCount, optionIndex) == once
  {
  }

  /** A `keydown` event: the key name and the modifier flags the handlers read. */
  datatype KeyEvent = KeyEvent(key: string, ctrlKey: bool, shiftKey: bool)

  /** The developer-tool and reload shortcuts refused during a test
      (script.js:142-147). */
  predicate IsBlockedShortcut(e: KeyEvent)
  {
    || e.key == "F12"
    || (e.ctrlKey && e.shiftKey && e.key == "I")
    || (e.ctrlKey && e.key == "u")
    || (e.ctrlKey && e.shiftKey && e.key == "C")
    || e.key == "F5"
    || (e.ctrlKey && e.key == "r")
  }

  predicate IsOptionKey(key: string)
  {
    key == "1" || key == "2" || key == "3" || key == "4"
  }

  /** `parseInt(e.key) - 1`: key `k` names option `k - 1`, so writing the
      option number back out gives the key. */
  function OptionKeyIndex(key: string): (r: int)
    requires IsOptionKey(key)
    ensures 0 <= r < 4
    ensures Digits(r + 1) == key
  {
    key[0] as int - '1' as int
  }

  /** The keys the keyboard dispatcher (script.js:676-704) acts on. */
  predicate IsNavigationKey(key: string)
  {
    key == "ArrowLeft" || key == "ArrowRight" || IsOptionKey(key) || key == "Enter"
  }

  /** The refused shortcuts and the dispatcher's keys are disjoint, so a
      refused shortcut reaches no state-changing handler. */
  lemma BlockedShortcutsDoNotNavigate(e: KeyEvent)
    requires IsBlockedShortcut(e)
    ensures !IsNavigationKey(e.key)
  {
  }

  /** The body of the `forEach` at script.js:204-208 for one question: its
      options are replaced by a shuffled copy and `correct` by the position
      of the previously correct text (-1 when that text was `undefined`). */
  method ShuffleOptions(question: Question)
    modifies question
    ensures multiset(question.options) == old(multiset(question.options))
    ensures question.CorrectText() == old(question.CorrectText())
    ensures question.correct == IndexOf(question.options, old(question.CorrectText()))
  {
    var correctAnswer := question.CorrectText();
    var options := question.options;
    var optionCopy := new string[|options|](k requires 0 <= k < |options| => options[k]);
    assert optionCopy[..] == options;
    var shuffledOptions;
    ghost var draws;
    shuffledOptions, draws := ShuffleArray(optionCopy);
    RemapKeepsCorrectText(options, shuffledOptions[..], question.correct);
    question.options := shuffledOptions[..];
    question.correct := IndexOf(question.options, correctAnswer);
  }

  /** The `forEach` at script.js:204-208 over the shuffled list. The list
      holds the bank's own objects, and one object may even occur twice; each
      visit shuffles again and re-locates the same correct text. */
  method ShuffleEachQuestion(questions: seq<Question>)
    modifies questions
    ensures forall q :: q in questions ==>
      && multiset(q.options) == old(multiset(q.options))
      && q.CorrectText() == old(q.CorrectText())
      && q.correct == IndexOf(q.options, old(q.CorrectText()))
  {
    var index := 0;
    while index < |questions|
      invariant 0 <= index <= |questions|
      invariant forall q :: q in questions ==>
        multiset(q.options) == old(multiset(q.options)) && q.CorrectText() == old(q.CorrectText())
      invariant forall q :: q in questions[..index] ==>
        q.correct == IndexOf(q.options, old(q.CorrectText()))
    {
      var question := questions[index];
      ShuffleOptions(question);
      assert questions[..index + 1] == questions[..index] + [question];
      index := index + 1;
    }
    assert questions[..index] == questions;
  }

  /** Lines 203-208 of `startTest`: a shuffled shallow copy of the subject's
      list, after which every question object of the list has had its
      options shuffled and its correct index re-located. */
  method ShuffleQuestions(qs: seq<Question>) returns (questions: seq<Question>)
    modifies set q | q in qs
    ensures multiset(questions) == multiset(qs)
    ensures forall q :: q in qs ==>
      && multiset(q.options) == old(multiset(q.options))
      && q.CorrectText() == old(q.CorrectText())
      && q.correct == IndexOf(q.options, old(q.CorrectText()))
  {
    var copy := new Question[|qs|](k requires 0 <= k < |qs| => qs[k]);
    assert copy[..] == qs;
    var order;
    ghost var draws;
    order, draws := ShuffleArray(copy);
    questions := order[..];
    forall q | q in qs ensures q in questions {
      assert q in multiset(qs);
    }
    forall q | q in questions ensures q in qs {
      assert q in multiset(questions);
    }
    ShuffleEachQuestion(questions);
  }

  class TestSession {
    /** `mcqData`, loaded once before any test starts. */
    const bank: SubjectBank

    var currentTest: Option<string>
    var currentQuestionIndex: nat
    var selectedAnswers: seq<Option<int>>
    var warningCount: nat
    var timeRemaining: nat
    var isTestActive: bool
    var shuffledQuestions: seq<Question>
    /** `testTimer` holds an interval that has not been cleared. */
    var timerRunning: bool

    function State(): SessionState
      reads this
    {
      SessionState(currentTest, currentQuestionIndex, selectedAnswers, warningCount,
                   timeRemaining, isTestActive, shuffledQuestions, timerRunning)
    }

    /** The relations between the fields that every handler keeps, apart from
        the warning bound. */
    ghost predicate Consistent()
      reads this
    {
      && |selectedAnswers| == |shuffledQuestions|
      && (shuffledQuestions == [] ==> currentQuestionIndex == 0)
      && (shuffledQuestions != [] ==> currentQuestionIndex < |shuffledQuestions|)
      && (timerRunning ==> isTestActive && timeRemaining > 0)
      && (currentTest.None? <==> shuffledQuestions == [])
      && (currentTest.Some? ==>
            currentTest.value in bank && multiset(shuffledQuestions) == multiset(bank[currentTest.value]))
    }

    /** Between events the warning count is below the threshold: the event
        that reaches it also fails the test and clears the count. */
    ghost predicate Valid()
      reads this
    {
      Consistent() && warningCount < MaxWarnings
    }

    /** The bank's list for `subject`, empty when the subject is missing. */
    function Pool(subject: string): seq<Question>
    {
      if subject in bank then bank[subject] else []
    }

    /** The questions of the session's subject, which a retake reshuffles. */
    function CurrentPool(): seq<Question>
      reads this
    {
      if currentTest.Some? then Pool(currentTest.value) else []
    }

    /** The number of option buttons on screen: the options of the current
        question. */
    function OptionCount(): nat
      reads this, shuffledQuestions
    {
      if currentQuestionIndex < |shuffledQuestions| then |shuffledQuestions[currentQuestionIndex].options| else 0
    }

    /** The session as the script first sets it up (script.js:2-10). */
    constructor (bank: SubjectBank)
      ensures this.bank == bank && Valid()
      ensures State() == SessionState(None, 0, [], 0, TestDuration, false, [], false)
    {
      this.bank := bank;
      currentTest := None;
      currentQuestionIndex := 0;
      selectedAnswers := [];
      warningCount := 0;
      timeRemaining := TestDuration;
      isTestActive := false;
      shuffledQuestions := [];
      timerRunning := false;
    }

    /** `startTest(subject)`. A missing or empty subject changes nothing.
        Otherwise the session starts afresh on a shuffled copy of the
        subject's list; the copy is shallow, so the options of the bank's own
        question objects are shuffled and their correct index is moved to
        follow the correct text. */
    method StartTest(subject: string) returns (started: bool)
      requires Valid()
      modifies this, set q | q in Pool(subject)
      ensures Valid()
      ensures started <==> |Pool(subject)| > 0
      ensures !started ==> unchanged(this)
      ensures started ==>
        && currentTest == Some(subject)
        && currentQuestionIndex == 0
        && warningCount == 0
        && timeRemaining == TestDuration
        && isTestActive && timerRunning
        && selectedAnswers == seq(|Pool(subject)|, _ => None)
        && multiset(shuffledQuestions) == multiset(Pool(subject))
      ensures forall q :: q in Pool(subject) ==>
        && multiset(q.options) == old(multiset(q.options))
        && q.CorrectText() == old(q.CorrectText())
        && q.correct == IndexOf(q.options, old(q.CorrectText()))
    {
      if subject !in bank || |bank[subject]| == 0 {
        return false;
      }
      // The shuffle reads none of the fields set at script.js:195-200, so
      // doing it before those assignments gives the same state.
      var questions := ShuffleQuestions(bank[subject]);

      currentTest := Some(subject);
      currentQuestionIndex := 0;
      warningCount := 0;
      isTestActive := true;
      timeRemaining := TestDuration;
      shuffledQuestions := questions;
      selectedAnswers := seq(|questions|, _ => None);
      timerRunning := true;
      started := true;
    }

    /** `selectOption(optionIndex)`: records the choice for the current
        question, and only there. */
    method SelectOption(optionIndex: int)
      requires Valid()
      modifies this
      ensures Valid()
      ensures State() == old(State()).(selectedAnswers :=
        RecordAnswer(old(selectedAnswers), old(currentQuestionIndex), old(OptionCount()), optionIndex))
    {
      if currentQuestionIndex < |shuffledQuestions| && 0 <= optionIndex < |shuffledQuestions[currentQuestionIndex].options| {
        selectedAnswers := selectedAnswers[currentQuestionIndex := Some(optionIndex)];
      }
    }

    /** `previousQuestion()`: moves back one question unless on the first. */
    method PreviousQuestion()
      requires Valid()
      modifies this
      ensures Valid()
      ensures State() == old(State()).(currentQuestionIndex := PrevIndex(old(currentQuestionIndex)))
    {
      if currentQuestionIndex > 0 {
        currentQuestionIndex := currentQuestionIndex - 1;
      }
    }

    /** `nextQuestion()`: moves on one question unless on the last. */
    method NextQuestion()
      requires Valid()
      modifies this
      ensures Valid()
      ensures State() == old(State()).(currentQuestionIndex :=
        NextIndex(old(currentQuestionIndex), |old(shuffledQuestions)|))
    {
      if currentQuestionIndex < |shuffledQuestions| - 1 {
        currentQuestionIndex := currentQuestionIndex + 1;
      }
    }

    /** `resetTestState()`. */
    method ResetTestState()
      requires Consistent()
      modifies this
      ensures Valid()
      ensures State() == Cleared(old(State()))
    {
      currentTest := None;
      currentQuestionIndex := 0;
      selectedAnswers := [];
      warningCount := 0;
      timeRemaining := TestDuration;
      shuffledQuestions := [];
    }

    /** `failTest(reason)`: ends the test without a score. */
    method FailTest()
      requires Consistent()
      modifies this
      ensures Valid()
      ensures State() == Cleared(old(State())).(isTestActive := false, timerRunning := false)
    {
      isTestActive := false;
      timerRunning := false;
      ResetTestState();
    }

    /** `handleFullscreenChange()`, with the browser's fullscreen status as a
        parameter. Leaving fullscreen during a test raises a warning; the
        third one fails the test, which clears the active flag, so further
        events do nothing. */
    method HandleFullscreenChange(isFullscreen: bool) returns (warned: bool, failed: bool)
      requires Valid()
      modifies this
      ensures Valid()
      ensures warned <==> old(isTestActive) && !isFullscreen
      ensures failed <==> warned && old(warningCount) + 1 == MaxWarnings
      ensures !warned ==> unchanged(this)
      ensures warned && !failed ==> State() == old(State()).(warningCount := old(warningCount) + 1)
      ensures failed ==> State() == Cleared(old(State())).(isTestActive := false, timerRunning := false)
    {
      warned, failed := false, false;
      if isTestActive && !isFullscreen {
        warningCount := warningCount + 1;
        warned := true;
        if warningCount >= MaxWarnings {
          FailTest();
          failed := true;
        }
      }
    }

    /** `submitTest()`: a declined confirmation changes nothing; otherwise the
        test stops and is scored. The session is not reset here. */
    method SubmitTest(confirmed: bool) returns (result: Option<Results>)
      requires Valid()
      modifies this
      ensures Valid()
      ensures !confirmed ==> unchanged(this) && result.None?
      ensures confirmed ==>
        && State() == old(State()).(isTestActive := false, timerRunning := false)
        && result == Some(Score(Snapshot(shuffledQuestions), selectedAnswers))
    {
      if !confirmed {
        return None;
      }
      isTestActive := false;
      timerRunning := false;
      var r := CalculateResults(shuffledQuestions, selectedAnswers);
      result := Some(r);
    }

    /** One firing of the interval set up by `startTimer` (script.js:326-343):
        one second less, the new clock text and colour, and on reaching zero
        the interval is cleared and `submitTest` asks for confirmation. If
        that is declined the test stays active with a stopped clock. No
        interval, no firing. */
    method Tick(confirmSubmit: bool) returns (clock: Option<string>, colour: Option<Colour>, result: Option<Results>)
      requires Valid()
      modifies this
      ensures Valid()
      ensures !old(timerRunning) ==> unchanged(this) && clock.None? && colour.None? && result.None?
      ensures old(timerRunning) ==>
        clock == Some(FormatClock(old(timeRemaining) - 1)) && colour == TimerColour(old(timeRemaining) - 1)
      ensures old(timerRunning) && old(timeRemaining) > 1 ==>
        State() == old(State()).(timeRemaining := old(timeRemaining) - 1) && result.None?
      ensures old(timerRunning) && old(timeRemaining) == 1 && confirmSubmit ==>
        && State() == old(State()).(timeRemaining := 0, timerRunning := false, isTestActive := false)
        && result == Some(Score(Snapshot(shuffledQuestions), selectedAnswers))
      ensures old(timerRunning) && old(timeRemaining) == 1 && !confirmSubmit ==>
        State() == old(State()).(timeRemaining := 0, timerRunning := false) && result.None?
    {
      if !timerRunning {
        return None, None, None;
      }
      clock := Some(FormatClock(timeRemaining - 1));
      colour := TimerColour(timeRemaining - 1);
      if timeRemaining > 1 {
        CountDown();
        result := None;
      } else {
        result := Expire(confirmSubmit);
      }
    }

    /** `timeRemaining--` with time still left afterwards. */
    method CountDown()
      requires Valid() && timerRunning && timeRemaining > 1
      modifies this
      ensures Valid()
      ensures State() == old(State()).(timeRemaining := old(timeRemaining) - 1)
    {
      timeRemaining := timeRemaining - 1;
    }

    /** The last second (script.js:327, 340-342): the clock reaches zero, the
        interval is cleared and `submitTest` asks for confirmation. */
    method Expire(confirmSubmit: bool) returns (result: Option<Results>)
      requires Valid() && timerRunning && timeRemaining == 1
      modifies this
      ensures Valid()
      ensures confirmSubmit ==>
        && State() == old(State()).(timeRemaining := 0, timerRunning := false, isTestActive := false)
        && result == Some(Score(Snapshot(shuffledQuestions), selectedAnswers))
      ensures !confirmSubmit ==>
        State() == old(State()).(timeRemaining := 0, timerRunning := false) && result.None?
    {
      timeRemaining := 0;
      timerRunning := false;
      assert State() == old(State()).(timeRemaining := 0, timerRunning := false);
      result := SubmitTest(confirmSubmit);
    }

    /** `exitTest()`: during a test it needs confirmation; then (or when no
        test is running) it stops everything and resets the session. */
    method ExitTest(confirmed: bool) returns (exited: bool)
      requires Valid()
      modifies this
      ensures Valid()
      ensures exited <==> !old(isTestActive) || confirmed
      ensures !exited ==> unchanged(this)
      ensures exited ==> State() == Cleared(old(State())).(isTestActive := false, timerRunning := false)
    {
      if isTestActive && !confirmed {
        return false;
      }
      isTestActive := false;
      timerRunning := false;
      ResetTestState();
      exited := true;
    }

    /** `closeResults()`: leaving the results screen resets the session. */
    method CloseResults()
      requires Valid()
      modifies this
      ensures Valid()
      ensures State() == Cleared(old(State()))
    {
      ResetTestState();
    }

    /** `retakeTest()`: restarts the subject still recorded after a submit;
        after a reset there is none and nothing happens. The test
        `if (currentTest)` is false for the empty string as well, so a
        subject keyed `""` is never restarted. */
    method RetakeTest() returns (started: bool)
      requires Valid()
      modifies this, CurrentPool()
      ensures Valid()
      ensures started <==> old(currentTest).Some? && old(currentTest).value != ""
      ensures !started ==> unchanged(this) && unchanged(old(CurrentPool()))
      ensures started ==>
        && currentTest == old(currentTest)
        && currentQuestionIndex == 0 && warningCount == 0 && timeRemaining == TestDuration
        && isTestActive && timerRunning
        && selectedAnswers == seq(|shuffledQuestions|, _ => None)
        && multiset(shuffledQuestions) == multiset(old(shuffledQuestions))
      ensures started ==> forall q :: q in old(CurrentPool()) ==>
        && multiset(q.options) == old(multiset(q.options))
        && q.CorrectText() == old(q.CorrectText())
        && q.correct == IndexOf(q.options, old(q.CorrectText()))
    {
      started := false;
      if currentTest.Some? && currentTest.value != "" {
        assert |shuffledQuestions| == |multiset(shuffledQuestions)|;
        started := StartTest(currentTest.value);
      }
    }

    /** The keyboard dispatcher (script.js:673-705): arrows move, `1`-`4`
        choose an option that is on screen, Enter moves on or, on the last
        question, submits. Nothing happens outside a test or for other keys. */
    method KeyDown(e: KeyEvent, confirmSubmit: bool) returns (result: Option<Results>)
      requires Valid()
      modifies this
      ensures Valid()
      ensures !old(isTestActive) || !IsNavigationKey(e.key) ==> unchanged(this) && result.None?
      ensures old(isTestActive) && e.key == "ArrowLeft" ==>
        State() == old(State()).(currentQuestionIndex := PrevIndex(old(currentQuestionIndex))) && result.None?
      ensures old(isTestActive) && e.key == "ArrowRight" ==>
        && State() == old(State()).(currentQuestionIndex :=
             NextIndex(old(currentQuestionIndex), |old(shuffledQuestions)|))
        && result.None?
      ensures old(isTestActive) && e.key == "Enter" && !IsLastQuestion(old(currentQuestionIndex), |old(shuffledQuestions)|) ==>
        && State() == old(State()).(currentQuestionIndex :=
             NextIndex(old(currentQuestionIndex), |old(shuffledQuestions)|))
        && result.None?
      ensures old(isTestActive) && IsOptionKey(e.key) ==>
        && State() == old(State()).(selectedAnswers :=
             RecordAnswer(old(selectedAnswers), old(currentQuestionIndex), old(OptionCount()), OptionKeyIndex(e.key)))
        && result.None?
      ensures old(isTestActive) && e.key == "Enter" && IsLastQuestion(old(currentQuestionIndex), |old(shuffledQuestions)|) ==>
        if confirmSubmit then
          && State() == old(State()).(isTestActive := false, timerRunning := false)
          && result == Some(Score(Snapshot(shuffledQuestions), selectedAnswers))
        else unchanged(this) && result.None?
    {
      result := None;
      if !isTestActive {
        return;
      }
      if e.key == "ArrowLeft" {
        if !PrevDisabled(currentQuestionIndex) {
          PreviousQuestion();
        }
      } else if e.key == "ArrowRight" {
        if currentQuestionIndex < |shuffledQuestions| - 1 {
          NextQuestion();
        }
      } else if IsOptionKey(e.key) {
        var optionIndex := OptionKeyIndex(e.key);
        if optionIndex < OptionCount() {
          SelectOption(optionIndex);
        }
      } else if e.key == "Enter" {
        if IsLastQuestion(currentQuestionIndex, |shuffledQuestions|) {
          result := SubmitTest(confirmSubmit);
        } else {
          NextQuestion();
        }
      }
    }

    /** The shortcut guard (script.js:139-150): during a test a refused
        shortcut shows a warning. It changes no field, so in particular the
        warning count stays as it is. */
    method BlockShortcut(e: KeyEvent) returns (warned: bool)
      ensures warned <==> isTestActive && IsBlockedShortcut(e)
    {
      warned := isTestActive && IsBlockedShortcut(e);
    }
  }
}
