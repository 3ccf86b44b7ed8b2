# Entry-test practice: the test-session controller in Dafny

`script.js` drives a timed multiple-choice test in the browser. A student
picks a subject. The script shuffles that subject's questions, and the
options of each question. It then runs a 9000-second countdown, records one
answer per question, warns when the student leaves fullscreen (the third
warning fails the test), and scores the test on submit. This project models
the part of the script that decides those things:

- the session globals (`currentTest`, `currentQuestionIndex`,
  `selectedAnswers`, `warningCount`, `timeRemaining`, `isTestActive`,
  `shuffledQuestions`, plus whether the interval timer is set) as the fields
  of the class `Session.TestSession`, with one method per event handler;
- `shuffleArray`, a Fisher-Yates shuffle of a copy
  (`Shuffling.ShuffleArray`), and the option shuffle that re-locates each
  question's correct index by its text;
- `calculateResults`, a counting loop (`Scoring.CalculateResults`) proved
  equal to the specification function `Scoring.Score`;
- the pure classifiers: the `MM:SS` clock text, the timer and score colours,
  the subject title, and the navigation-button state (module `Display`);
- the built-in question bank `sampleMCQData`, used as a fixture for three
  whole-session scenarios.

Modules, in dependency order:

- `Wrappers`: `Option`.
- `QuestionBank`: the `Question` class and its value view `QuestionData`.
  It also holds `OptionAt`, which is JavaScript's `options[i]`, and
  `IndexOf`, which is `Array.prototype.indexOf`.
- `Shuffling`, `Scoring` and `Display`.
- `Session`: the controller.
- `SampleTexts` and `SampleData`: the fixture.
- `Scenarios`.

Question objects are shared. The copy `[...mcqData[subject]]` is shallow, so
starting a test rewrites `options` and `correct` on the bank's own objects.
`StartTest` therefore names those objects in its `modifies` clause. It
promises, for every question of the subject:
- its options are a permutation of the old ones;
- the correct option's text is unchanged;
- `correct` is the first position of that text.

Choices made outside the script become parameters or nondeterminism:
- `Math.random` is a nondeterministic choice of `j` in `[0, i]`. A ghost log
  of the choices ties each shuffle to the function `Shuffling.FisherYates`.
- The answer to each `confirm` dialog is a boolean argument.
- The browser's fullscreen status is a boolean argument.
- One firing of the one-second interval is one call of `TestSession.Tick`.
  The interval being set is the field `timerRunning`, and `clearInterval`
  clears it.

The code differs from the behaviour one might expect in four places. The
model follows the code.

- `startTest` does not check whether a test is already running.
- When the clock reaches zero, `submitTest` still asks for confirmation.
  The interval is cleared before the question is asked. A declined
  confirmation therefore leaves an active test whose clock is stopped at
  `00:00` (see `Session.TestSession.Tick` and
  `Scenarios.TimerExpiryScenario`).
- A confirmed submit does not reset the session. `closeResults` or
  `exitTest` does that later, which is why `retakeTest` can still find
  `currentTest`.
- The comments at script.js:6 and script.js:200 say "5 minutes", but the
  value 9000 is 150 minutes. `startTest` does not write the timer text.
  9000 s would format as `150:00` (`Display.InitialClockText`). The first
  write comes from the first tick, after `timeRemaining--`, and shows
  `149:59`. Until then the element keeps the page's own text or the
  `'20:30:00'` that `resetTestState` writes.

## Model

| member | source | states |
|---|---|---|
| QuestionBank.IndexOf | script.js:207 | the result is -1 or the first position holding the text; it is -1 exactly when no option holds it, and always -1 for `undefined` |
| QuestionBank.RemapKeepsCorrectText | script.js:205-207 | after the options are permuted, looking up the old correct text and indexing with the result gives back that text; an existing text is found at a valid index |
| QuestionBank.Question.constructor | script.js:15-20 | a new question holds exactly the given id, text, options, correct index and explanation |
| Shuffling.Swap | script.js:247 | the destructuring swap exchanges positions `i` and `j` and leaves every other position alone |
| Shuffling.FisherYatesPermutes | script.js:245-248 | whatever the random draws, the loop's swaps keep the multiset of elements |
| Shuffling.ShuffleArray | script.js:243-250 | the result is a fresh array, and the input is not modified; it is the Fisher-Yates result for one draw in `[0, i]` per step `i = n-1 … 1`; it holds the input's elements with their multiplicities |
| Scoring.RoundedPercent | script.js:469 | the percentage is the integer nearest to `100*correct/total`, with halves rounded up, and it is at most 100 |
| Scoring.CountsPartition | script.js:446-458 | every question is counted exactly once: correct + wrong = total |
| Scoring.CorrectCountIsCardinality | script.js:446-458 | the correct count is the number of positions whose answer is present and equals the question's `correct` |
| Scoring.UnansweredScoresZero | script.js:450-458 | with nothing answered, nothing is correct and every question is wrong |
| Scoring.ScoreIsConsistent | script.js:441-470 | the counts add up to the total; a percentage exists exactly when there are questions, and it is the rounded share in 0..100; there is one detail line per question; the correct count equals the number of detail lines marked correct |
| Scoring.Score | script.js:441-470 | the results: correct and wrong counts, total, rounded percentage and one detail line per question (meaning stated by `ScoreIsConsistent`, `CountsPartition` and `CorrectCountIsCardinality`) |
| Scoring.CalculateResults | script.js:441-473 | the loop returns exactly `Score` of the questions' current values and the answers |
| Display.DigitsRoundTrip | script.js:331 | `n.toString()` is a digit string that reads back as `n`, one digit below 10 and two below 100 |
| Display.PadDecimal | script.js:331 | `padStart(2, '0')` keeps the value and gives at least two digits, exactly two below 100 |
| Display.PadOneDigit | script.js:331 | a one-digit number gets a single leading zero, and its value is kept |
| Display.PadSeveralDigits | script.js:331 | a number of two or more digits is left as it is |
| Display.FormatClock | script.js:329-331 | the clock text: whole minutes and the remaining seconds, each padded to two digits, joined by a colon (what it denotes is stated by `ClockTextDenotesTime`) |
| Display.ClockTextDenotesTime | script.js:328-331 | the clock text is minutes, a colon and two digits of seconds below 60, and minutes*60 + seconds is the time left; below 100 minutes it is exactly five characters |
| Display.InitialClockText | script.js:329-331 | 9000 seconds show as `150:00`: minutes are not capped |
| Display.TimerColour | script.js:334-338 | red at 60 s or less, amber at 120 s or less, otherwise the colour is left as it was (ordering stated by `TimerColourEscalates`) |
| Display.TimerColourEscalates | script.js:334-338 | once the timer text turns amber or red, a later tick never gives it a less urgent colour |
| Display.ScoreColour | script.js:483-485 | green from 80%, amber from 60%, red below (ordering stated by `ScoreColourMonotone`) |
| Display.ScoreColourMonotone | script.js:483-485 | a higher percentage never gets a more alarming colour (green at 80, amber at 60) |
| Display.SubjectDisplayName | script.js:231-241 | a known key gets its table name; any other key comes back upper-cased with the same length, no lower-case letter left and every other character kept |
| Display.PrevDisabled | script.js:400 | the Previous button is disabled on the first question (tied to the move by `NavigationButtonsMatchMoves`) |
| Display.IsLastQuestion | script.js:403-411 | the last question shows Submit instead of Next (tied to the move by `NavigationButtonsMatchMoves`) |
| Session.PrevIndex | script.js:414-419 | the position after `previousQuestion`: back one unless on the first question |
| Session.NextIndex | script.js:421-426 | the position after `nextQuestion`: on one unless on the last question |
| Session.NavigationButtonsMatchMoves | script.js:394-426 | Previous is disabled exactly when `previousQuestion` would not move; Submit replaces Next exactly when `nextQuestion` would not move; both moves stay within the questions |
| Session.RecordAnswer | script.js:378-392 | only the current question's slot changes; it takes the chosen index when that option exists; without such an option nothing is stored |
| Session.RecordAnswerIdempotent | script.js:388 | choosing the same option twice is the same as choosing it once |
| Session.IsBlockedShortcut | script.js:142-147 | the six refused shortcuts: F12, Ctrl+Shift+I, Ctrl+U, Ctrl+Shift+C, F5, Ctrl+R (kept apart from navigation by `BlockedShortcutsDoNotNavigate`) |
| Session.OptionKeyIndex | script.js:692 | key `k` of `1`-`4` gives option index `k - 1`, in 0..3: writing `r + 1` as a decimal gives the key back |
| Session.BlockedShortcutsDoNotNavigate | script.js:139-150 | no refused shortcut is a key the dispatcher acts on |
| Session.ShuffleOptions | script.js:205-207 | one question's options become a permutation of the old ones; its correct text is unchanged; `correct` is the `indexOf` of the old correct text |
| Session.ShuffleEachQuestion | script.js:204-208 | the same three facts for every question object in the list, including an object listed twice |
| Session.ShuffleQuestions | script.js:203-208 | the session's list is a permutation of the subject's list, and every question of the subject has been reshuffled as above |
| Session.TestSession.constructor | script.js:2-10 | the initial session: no subject, no questions, no answers, 9000 s, inactive, no timer |
| Session.TestSession.StartTest | script.js:189-229 | a missing or empty subject changes nothing; otherwise the session is on that subject at question 0, with no warnings, 9000 s, active and timed, one `null` answer per question, and a permutation of the subject's questions, each reshuffled |
| Session.TestSession.SelectOption | script.js:378-392 | only `selectedAnswers` changes, as `RecordAnswer` says |
| Session.TestSession.PreviousQuestion | script.js:414-419 | only the position changes: back one unless on the first question |
| Session.TestSession.NextQuestion | script.js:421-426 | only the position changes: on one unless on the last question |
| Session.Cleared | script.js:551-556 | the fields `resetTestState` clears: subject, position, answers, warnings, clock and questions; the active flag and the timer are kept |
| Session.TestSession.ResetTestState | script.js:550-564 | subject, position, answers, warnings, clock and questions are cleared; the active flag and timer are untouched |
| Session.TestSession.FailTest | script.js:309-321 | the test becomes inactive, the timer is cleared, and the session is reset |
| Session.TestSession.HandleFullscreenChange | script.js:277-291 | it warns exactly when a test is active and fullscreen is lost; a warning adds exactly one to the count; the third fails and resets the test; with no warning nothing changes |
| Session.TestSession.SubmitTest | script.js:428-439 | declined, nothing changes; confirmed, the test stops and the timer is cleared with nothing else changed, and the result is `Score` of the session |
| Session.TestSession.Tick | script.js:326-343 | with no interval nothing happens; otherwise one second less, the new clock text and colour; at zero the interval is cleared and the submit is asked, and a declined submit leaves an active test with a stopped clock |
| Session.TestSession.CountDown | script.js:327 | a second comes off the clock and nothing else changes |
| Session.TestSession.Expire | script.js:327-342 | the clock reaches 0 and the interval is cleared; confirmed, the test stops and is scored; declined, it stays active with the clock stopped |
| Session.TestSession.ExitTest | script.js:532-548 | during a test it needs confirmation; when it goes ahead it stops the test, clears the timer and resets the session, and otherwise changes nothing |
| Session.TestSession.CloseResults | script.js:520-523 | the session is reset |
| Session.TestSession.RetakeTest | script.js:525-530 | it restarts exactly when a subject is still recorded and is not the empty string (which `if (currentTest)` treats as false): same subject, fresh start, a permutation of the same questions, each of the subject's question objects reshuffled with its correct text kept and re-located; otherwise neither the session nor those questions change |
| Session.TestSession.KeyDown | script.js:673-705 | outside a test, or for other keys, nothing changes; the arrows move as Previous and Next do; `1`-`4` record an answer only when that option is on screen; Enter moves on, or on the last question submits |
| Session.TestSession.BlockShortcut | script.js:139-150 | it warns exactly for a refused shortcut during a test, and it changes no field, so the warning count stays the same |
| SampleData.Instantiate | script.js:14-36 | one fresh question object per entry, in order, holding that entry's values |
| SampleData.InstantiateAll | script.js:13-96 | one list of fresh objects per group of entries |
| SampleData.InstantiateBank | script.js:13-96 | the six subject keys, each holding fresh objects with that subject's entries |
| SampleData.SampleMCQData | script.js:13-96 | the built-in bank: keys `iq`, `computer`, `math`, `islamiat`, `general`, `english`, each holding fresh objects with exactly the listed entries |
| SampleData.MathBank | script.js:53-68 | the `math` subject has two fresh questions whose correct index names an option |
| SampleTexts.MathSampleWellFormed | script.js:53-68 | both `math` entries have a correct index within their options |
| Scenarios.OneRightOneUnanswered | script.js:441-470 | two questions, the first answered correctly and the second unanswered, score 1 right, 1 wrong, 50% |
| Scenarios.HalfRightScenario | script.js:428-473 | starting `math`, answering the current question correctly and submitting gives 1 right, 1 wrong, 50% |
| Scenarios.TimerExpiryScenario | script.js:326-343 | after 9000 ticks with nothing answered: if confirmed, the test ends with 0 right and 2 wrong; if declined, it stays active with the clock stopped at 0 |
| Scenarios.FullscreenExitScenario | script.js:277-291 | four fullscreen exits warn three times; only the third fails the test; the fourth finds no active test |

## Left out

- Rendering is not modelled:
  - `loadQuestion` markup;
  - `showResults` HTML;
  - `showWarning` text;
  - the modals;
  - the `overflow` style;
  - the `'20:30:00'` placeholder that `resetTestState` writes to the timer element.
  `SubjectDisplayName` and `FormatClock` give the text that rendering shows.
- The fullscreen API calls (script.js:252-275) are browser effects. Only their outcome, the fullscreen status, enters the model, as a parameter.
- `loadMCQData` (script.js:173-187) is network I/O and JSON parsing. The bank is an input of `TestSession`, and `SampleMCQData` supplies the built-in one.
- `setInterval`/`clearInterval` are reduced to one flag, `timerRunning`.
  - Two intervals at once are not modelled. `startTest` during a running test would leave the old interval firing as well.
  - Wall-clock timing is not modelled.
- `Math.random` is not modelled as a distribution. The model proves a permutation for every sequence of draws; uniformity is not stated.
- `Scoring.RoundedPercent` uses exact rational arithmetic. The script computes `Math.round(correct / total * 100)` in floating point, which can round differently at exact halves.
- `NaN` is not a number in the model. With zero questions the script shows `NaN%`; the model gives `None`. `startTest` never begins such a session.
- `Display.ToUpper` upper-cases ASCII letters only. `toUpperCase` also maps other scripts.
- `Display.SubjectDisplayName` does not model keys inherited from `Object.prototype` (such as `toString`). The script's table lookup would find those keys.
- Progress bar (script.js:708-728) and conic-gradient degrees (script.js:487): floating-point visuals only.
- The function-rebinding wrappers at script.js:731-747 only add progress-bar DOM effects. `ExitTest` models the wrapped `exitTest`.
- Page plumbing that never touches the session is not modelled: contact form, scroll animations, lazy images, smooth scrolling, hamburger menu, FAQ toggle.
- `returnToFullscreen` and `cancelTest` (script.js:299-307) are not modelled separately. The first only re-enters fullscreen. The second is `ExitTest`.
- `Session.TestSession.SelectOption`: a click on an option that is not on screen is modelled as storing nothing. The script would throw a `TypeError` before storing.
- `Session.TestSession.StartTest`: the state after `startTest` does not record the shuffle's random draws. Its contract states the permutation, not which permutation was chosen.
- `Session.TestSession.StartTest`: the bank is a map with only its own keys, so a subject that is not a key changes nothing. In the script, `mcqData[subject]` also finds keys inherited from `Object.prototype`. For `constructor` or `hasOwnProperty` (functions with `length` 1) and `__proto__` (`length` undefined) the guard at script.js:190 passes. Lines 195-200 then set the subject, position, answers, warnings, active flag and clock, and the spread at script.js:203 throws. That leaves an active session with no timer and the previous question list, which the model does not represent.
- `Session.TestSession.HandleFullscreenChange`: `Valid()` keeps the warning count below 3 between events. A fourth warning cannot occur, because the third always resets the count.
