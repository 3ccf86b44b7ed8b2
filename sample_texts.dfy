/** The entries of the built-in bank (script.js:13-96), one function per
    subject, written out as values. Long texts are written as several
    literals of at most 24 characters joined by `+`; the value is the same
    string. The verifier's cost for a string literal grows faster than its
    length, and short pieces keep every proof that mentions these texts
    within its resource limit. They are kept in a module of their own so
    that proofs elsewhere do not carry them. */
module SampleTexts {
  import opened QuestionBank

  function IqSample(): seq<QuestionData> {
    [
      QuestionData(1,
        "If in a certain code, " +
        "MEAT is written as AEMT, " +
        "how would TEAM be " +
        "written?",
        ["AEMT", "ETAM", "MAET", "ATEM"], 3,
        "The pattern is: first " +
        "letter goes to 4th " +
        "position, second to 1st, " +
        "third to 3rd, fourth to " +
        "2nd. So TEAM becomes " +
        "ATEM."),
      QuestionData(2,
        "Find the missing number: " +
        "2, 6, 12, 20, 30, ?",
        ["40", "42", "45", "48"], 1,
        "Pattern: n(n+1) where " +
        "n=1,2,3,4,5,6. So 6(6+1) " +
        "= 42."),
      QuestionData(3,
        "A man walks 5 km north, " +
        "then 3 km east, then 5 " +
        "km south. How far is he " +
        "from his starting point?",
        ["3 km", "5 km", "8 km", "13 km"], 0,
        "He ends up 3 km east of " +
        "his starting point, " +
        "forming a straight line " +
        "distance of 3 km.")
    ]
  }

  function ComputerSample(): seq<QuestionData> {
    [
      QuestionData(1,
        "What does CPU stand for?",
        ["Central Processing Unit", "Computer Personal Unit", "Central Program Unit", "Computer Processing Unit"], 0,
        "CPU stands for Central " +
        "Processing Unit, which " +
        "is the main component " +
        "that executes " +
        "instructions."),
      QuestionData(2,
        "Which of the following " +
        "is not an operating " +
        "system?",
        ["Windows", "Linux", "Microsoft Word", "macOS"], 2,
        "Microsoft Word is an " +
        "application software, " +
        "not an operating system.")
    ]
  }

  function MathSample(): seq<QuestionData> {
    [
      QuestionData(1,
        "What is 15% of 200?",
        ["25", "30", "35", "40"], 1,
        "15% of 200 = (15/100) × " +
        "200 = 30"),
      QuestionData(2,
        "If x + 5 = 12, what is x?",
        ["5", "6", "7", "8"], 2,
        "x + 5 = 12, so x = 12 - " +
        "5 = 7")
    ]
  }

  function IslamiatSample(): seq<QuestionData> {
    [
      QuestionData(1,
        "How many pillars of " +
        "Islam are there?",
        ["4", "5", "6", "7"], 1,
        "There are 5 pillars of " +
        "Islam: Shahada, Salah, " +
        "Zakat, Sawm, and Hajj.")
    ]
  }

  function GeneralSample(): seq<QuestionData> {
    [
      QuestionData(1,
        "What is the capital of " +
        "Pakistan?",
        ["Karachi", "Lahore", "Islamabad", "Peshawar"], 2,
        "Islamabad is the capital " +
        "city of Pakistan.")
    ]
  }

  function EnglishSample(): seq<QuestionData> {
    [
      QuestionData(1,
        "Choose the correct spelling:",
        ["Recieve", "Receive", "Receve", "Receeve"], 1,
        "The correct spelling is " +
        "'Receive' - remember 'i " +
        "before e except after " +
        "c'.")
    ]
  }

  /** Every question of the "math" subject has a `correct` that indexes its
      options. */
  lemma MathSampleWellFormed()
    ensures |MathSample()| == 2
    ensures forall d :: d in MathSample() ==> 0 <= d.correct < |d.options|
  {
  }
}
