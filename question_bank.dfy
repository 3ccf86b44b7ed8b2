/** Questions and the subject bank (`mcqData`, script.js:9).
    A question is an object whose `options` and `correct` fields are
    reassigned when a test starts (script.js:204-208); the bank and the
    running session share the same objects, so a question is a class here. */
module QuestionBank {
  import opened Wrappers

  /** What `options[i]` yields in JavaScript: the text at `i`, or `undefined`
      (None) when `i` is not an index of `options`. */
  function OptionAt(options: seq<string>, i: int): Option<string>
  {
    if 0 <= i < |options| then Some(options[i]) else None
  }

  /** `Array.prototype.indexOf` with strict equality: the first position whose
      text is `x`, or -1. `undefined` (None) equals no string, so it yields -1. */
  function IndexOf(options: seq<string>, x: Option<string>): (r: int)
    ensures -1 <= r < |options|
    ensures r >= 0 ==> x == Some(options[r])
    ensures r >= 0 ==> forall k :: 0 <= k < r ==> x != Some(options[k])
    ensures r == -1 <==> forall k :: 0 <= k < |options| ==> x != Some(options[k])
  {
    if |options| == 0 then -1
    else if x == Some(options[0]) then 0
    else
      var r := IndexOf(options[1..], x);
      if r == -1 then -1 else r + 1
  }

  /** Re-locating the correct answer by its text after the options were
      permuted finds that same text again; an out-of-range `correct`
      (text `undefined`) stays out of range. */
  lemma RemapKeepsCorrectText(before: seq<string>, after: seq<string>, correct: int)
    requires multiset(after) == multiset(before)
    ensures OptionAt(after, IndexOf(after, OptionAt(before, correct))) == OptionAt(before, correct)
    ensures OptionAt(before, correct).Some? ==> 0 <= IndexOf(after, OptionAt(before, correct)) < |after|
  {
    var x := OptionAt(before, correct);
    if x.Some? {
      assert before[correct] in multiset(before);
      assert x.value in after;
      var k :| 0 <= k < |after| && after[k] == x.value;
      assert x == Some(after[k]);
    }
  }

  /** The value of one question's fields at one moment. */
  datatype QuestionData = QuestionData(
    id: int, text: string, options: seq<string>, correct: int, explanation: string)

  /** One entry of a subject's list: `{id, question, options, correct, explanation}`. */
  class Question {
    const id: int
    const text: string
    var options: seq<string>
    var correct: int
    const explanation: string

    constructor (id: int, text: string, options: seq<string>, correct: int, explanation: string)
      ensures Data() == QuestionData(id, text, options, correct, explanation)
      ensures CorrectText() == OptionAt(options, correct)
    {
      this.id := id;
      this.text := text;
      this.options := options;
      this.correct := correct;
      this.explanation := explanation;
    }

    /** `options[correct]`: the text of the correct answer, or `undefined`. */
    function CorrectText(): Option<string>
      reads this
    {
      OptionAt(options, correct)
    }

    function Data(): QuestionData
      reads this
    {
      QuestionData(id, text, options, correct, explanation)
    }
  }

  /** The values of a list of questions, position by position. */
  function Snapshot(qs: seq<Question>): (r: seq<QuestionData>)
    reads set q | q in qs
    ensures |r| == |qs|
    ensures forall i :: 0 <= i < |qs| ==> r[i] == qs[i].Data()
  {
    if qs == [] then [] else [qs[0].Data()] + Snapshot(qs[1..])
  }

  /** `mcqData`: subject key to its ordered list of questions. */
  type SubjectBank = map<string, seq<Question>>
}
