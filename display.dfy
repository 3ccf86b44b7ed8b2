/** The small pure classifiers behind the test screen: the `MM:SS` timer
    text (script.js:329-331), the timer colour (script.js:334-338), the score
    colour (script.js:483-485), the subject title (script.js:231-241) and the
    navigation-button state (script.js:400-411). */
module Display {
  import opened Wrappers

  // ----- decimal text -----

  predicate IsDigit(c: char) { '0' <= c <= '9' }

  predicate IsDecimal(s: string)
  {
    |s| > 0 && forall i :: 0 <= i < |s| ==> IsDigit(s[i])
  }

  function DigitChar(d: nat): char
    requires d < 10
  {
    ('0' as int + d) as char
  }

  /** `n.toString()` for a non-negative integer. */
  function Digits(n: nat): string
    decreases n
  {
    if n < 10 then [DigitChar(n)] else Digits(n / 10) + [DigitChar(n % 10)]
  }

  /** The number a string of decimal digits denotes. */
  function DecimalValue(s: string): nat
    decreases |s|
  {
    if s == [] then 0
    else
      var last := s[|s| - 1];
      DecimalValue(s[..|s| - 1]) * 10 + (if IsDigit(last) then last as int - '0' as int else 0)
  }

  /** Printing a number and reading it back gives the number. */
  lemma {:induction false} DigitsRoundTrip(n: nat)
    ensures IsDecimal(Digits(n))
    ensures DecimalValue(Digits(n)) == n
    ensures n < 10 ==> |Digits(n)| == 1
    ensures 10 <= n < 100 ==> |Digits(n)| == 2
    decreases n
  {
    if n >= 10 {
      DigitsRoundTrip(n / 10);
      var s := Digits(n);
      assert s[..|s| - 1] == Digits(n / 10);
    }
  }

  /** A leading zero does not change the value. */
  lemma {:induction false} LeadingZero(s: string)
    ensures DecimalValue(['0'] + s) == DecimalValue(s)
    decreases |s|
  {
    if s != [] {
      var t := ['0'] + s;
      assert t[..|t| - 1] == ['0'] + s[..|s| - 1];
      LeadingZero(s[..|s| - 1]);
    }
  }

  /** `s.padStart(2, '0')`: zeros in front up to two characters. */
  function PadStart2(s: string): string
  {
    if |s| >= 2 then s else if |s| == 1 then ['0'] + s else "00"
  }

  /** A padded number keeps its value and has at least two digits, exactly
      two below 100. */
  lemma {:induction false} PadDecimal(n: nat)
    ensures IsDecimal(PadStart2(Digits(n)))
    ensures DecimalValue(PadStart2(Digits(n))) == n
    ensures n < 100 ==> |PadStart2(Digits(n))| == 2
    ensures |PadStart2(Digits(n))| >= 2
  {
    if n < 10 {
      PadOneDigit(n);
    } else {
      PadSeveralDigits(n);
    }
  }

  /** A single digit gets one leading zero, which keeps its value. */
  lemma PadOneDigit(n: nat)
    requires n < 10
    ensures IsDecimal(PadStart2(Digits(n)))
    ensures DecimalValue(PadStart2(Digits(n))) == n
    ensures |PadStart2(Digits(n))| == 2
  {
    DigitsRoundTrip(n);
    LeadingZero(Digits(n));
    assert PadStart2(Digits(n)) == ['0'] + Digits(n);
  }

  /** Two or more digits are left as they are. */
  lemma PadSeveralDigits(n: nat)
    requires n >= 10
    ensures PadStart2(Digits(n)) == Digits(n)
    ensures IsDecimal(Digits(n)) && DecimalValue(Digits(n)) == n
    ensures n < 100 ==> |Digits(n)| == 2
    ensures |Digits(n)| >= 2
  {
    DigitsRoundTrip(n);
    DigitsRoundTrip(n / 10);
    assert |Digits(n)| == |Digits(n / 10)| + 1;
  }

  /** The timer text for `t` seconds: minutes and seconds, each padded to at
      least two digits. Minutes are not capped at 59. */
  function FormatClock(t: nat): string
  {
    PadStart2(Digits(t / 60)) + ":" + PadStart2(Digits(t % 60))
  }

  /** The timer text reads back as the remaining time: the part before the
      colon counts minutes, the two digits after it count seconds below 60.
      Below 100 minutes the text is exactly `MM:SS`. */
  lemma {:induction false} ClockTextDenotesTime(t: nat)
    ensures var s := FormatClock(t);
      && |s| >= 5 && s[|s| - 3] == ':'
      && IsDecimal(s[..|s| - 3]) && IsDecimal(s[|s| - 2..])
      && DecimalValue(s[|s| - 2..]) < 60
      && DecimalValue(s[..|s| - 3]) * 60 + DecimalValue(s[|s| - 2..]) == t
      && (t < 6000 ==> |s| == 5)
  {
    var m, sec := PadStart2(Digits(t / 60)), PadStart2(Digits(t % 60));
    PadDecimal(t / 60);
    PadDecimal(t % 60);
    var s := FormatClock(t);
    assert s == m + ":" + sec;
    assert s[..|s| - 3] == m;
    assert s[|s| - 2..] == sec;
  }

  /** The initial 9000 seconds are shown as "150:00". */
  lemma InitialClockText()
    ensures FormatClock(9000) == "150:00"
  {
    assert Digits(150) == "150" by {
      assert Digits(15) == "15";
    }
  }

  // ----- colours -----

  /** The three colours the screen uses: red '#ef4444', amber '#f59e0b',
      green '#10b981'. */
  datatype Colour = Red | Amber | Green

  function Urgency(c: Colour): nat
  {
    match c
    case Green => 0
    case Amber => 1
    case Red => 2
  }

  /** The colour a tick gives the timer text, or None when the tick leaves
      the colour as it was (more than two minutes left). */
  function TimerColour(t: int): Option<Colour>
  {
    if t <= 60 then Some(Red)
    else if t <= 120 then Some(Amber)
    else None
  }

  /** Once a colour is set it only grows more urgent as time runs down. */
  lemma TimerColourEscalates(t: int, later: int)
    requires later <= t && TimerColour(t).Some?
    ensures TimerColour(later).Some?
    ensures Urgency(TimerColour(later).value) >= Urgency(TimerColour(t).value)
  {
  }

  /** The colour of the score circle for a percentage. */
  function ScoreColour(percentage: int): Colour
  {
    if percentage >= 80 then Green
    else if percentage >= 60 then Amber
    else Red
  }

  /** A higher score never gets a more alarming colour. */
  lemma ScoreColourMonotone(p: int, q: int)
    requires p <= q
    ensures Urgency(ScoreColour(q)) <= Urgency(ScoreColour(p))
  {
  }

  // ----- subject titles -----

  const DisplayNames: map<string, string> := map[
    "iq" := "IQ Test",
    "computer" := "Computer Science",
    "math" := "Mathematics",
    "islamiat" := "Islamiat",
    "general" := "General Knowledge",
    "english" := "English"]

  predicate IsLower(c: char) { 'a' <= c <= 'z' }

  function UpperChar(c: char): char
  {
    if IsLower(c) then (c as int - 32) as char else c
  }

  /** `s.toUpperCase()` on ASCII letters. */
  function ToUpper(s: string): string
  {
    seq(|s|, i requires 0 <= i < |s| => UpperChar(s[i]))
  }

  /** The title shown for a subject: its entry in the table of names, else
      the key in capitals. The result has no lower-case ASCII letter unless
      it comes from the table, and a capitalised key keeps every character
      that is not a lower-case letter. */
  function SubjectDisplayName(subject: string): (r: string)
    ensures subject in DisplayNames ==> r == DisplayNames[subject]
    ensures subject !in DisplayNames ==>
      && |r| == |subject|
      && (forall i :: 0 <= i < |r| ==> !IsLower(r[i]))
      && (forall i :: 0 <= i < |r| && !IsLower(subject[i]) ==> r[i] == subject[i])
      && (forall i :: 0 <= i < |r| && IsLower(subject[i]) ==> r[i] as int == subject[i] as int - 32)
  {
    if subject in DisplayNames then DisplayNames[subject] else ToUpper(subject)
  }

  // ----- navigation buttons -----

  /** `prevBtn.disabled`. */
  predicate PrevDisabled(index: int)
  {
    index == 0
  }

  /** On the last question the Next button is hidden and Submit is shown. */
  predicate IsLastQuestion(index: int, count: int)
  {
    index == count - 1
  }
}
