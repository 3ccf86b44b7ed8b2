/** `sampleMCQData` (script.js:13-96): the built-in bank the loader falls
    back to, whose entries are the values of module SampleTexts, turned
    into fresh question objects by `SampleMCQData`, as the object literal
    does. */
module SampleData {
  import opened Wrappers
  import opened QuestionBank
  import opened SampleTexts

  /** One fresh object per entry, in order. */
  method Instantiate(data: seq<QuestionData>) returns (qs: seq<Question>)
    ensures Snapshot(qs) == data
    ensures forall q :: q in qs ==> fresh(q)
  {
    qs := [];
    var i := 0;
    while i < |data|
      invariant 0 <= i <= |data| && |qs| == i
      invariant forall k :: 0 <= k < i ==> qs[k].Data() == data[k]
      invariant forall q :: q in qs ==> fresh(q)
    {
      var d := data[i];
      var q := new Question(d.id, d.text, d.options, d.correct, d.explanation);
      qs := qs + [q];
      i := i + 1;
    }
  }

  /** The bank that files six lists under the subject keys, in the order
      `iq`, `computer`, `math`, `islamiat`, `general`, `english`. */
  function Bank(lists: seq<seq<Question>>): (bank: SubjectBank)
    requires |lists| == 6
    ensures bank.Keys == {"iq", "computer", "math", "islamiat", "general", "english"}
    ensures bank["iq"] == lists[0] && bank["computer"] == lists[1] && bank["math"] == lists[2]
    ensures bank["islamiat"] == lists[3] && bank["general"] == lists[4] && bank["english"] == lists[5]
    ensures forall s :: s in bank ==> bank[s] in lists
  {
    map[
      "iq" := lists[0],
      "computer" := lists[1],
      "math" := lists[2],
      "islamiat" := lists[3],
      "general" := lists[4],
      "english" := lists[5]]
  }

  /** One list of fresh objects per group of entries, group by group. */
  method InstantiateAll(groups: seq<seq<QuestionData>>) returns (lists: seq<seq<Question>>)
    ensures |lists| == |groups|
    ensures forall k :: 0 <= k < |groups| ==> Snapshot(lists[k]) == groups[k]
    ensures forall k, q :: 0 <= k < |lists| && q in lists[k] ==> fresh(q)
  {
    lists := [];
    while |lists| < |groups|
      invariant |lists| <= |groups|
      invariant forall k :: 0 <= k < |lists| ==> Snapshot(lists[k]) == groups[k]
      invariant forall k, q :: 0 <= k < |lists| && q in lists[k] ==> fresh(q)
    {
      var qs := Instantiate(groups[|lists|]);
      lists := lists + [qs];
    }
  }

  /** One list of fresh question objects per subject, filed under the
      subject's key. */
  method InstantiateBank(iqData: seq<QuestionData>, computerData: seq<QuestionData>,
                         mathData: seq<QuestionData>, islamiatData: seq<QuestionData>,
                         generalData: seq<QuestionData>, englishData: seq<QuestionData>)
    returns (bank: SubjectBank)
    ensures bank.Keys == {"iq", "computer", "math", "islamiat", "general", "english"}
    ensures Snapshot(bank["iq"]) == iqData && Snapshot(bank["computer"]) == computerData
    ensures Snapshot(bank["math"]) == mathData && Snapshot(bank["islamiat"]) == islamiatData
    ensures Snapshot(bank["general"]) == generalData && Snapshot(bank["english"]) == englishData
    ensures forall s :: s in bank ==> forall q :: q in bank[s] ==> fresh(q)
  {
    var lists := InstantiateAll([iqData, computerData, mathData, islamiatData, generalData, englishData]);
    bank := Bank(lists);
  }

  /** `sampleMCQData`: every subject's list is made of fresh objects holding
      that subject's entries. */
  method SampleMCQData() returns (bank: SubjectBank)
    ensures bank.Keys == {"iq", "computer", "math", "islamiat", "general", "english"}
    ensures Snapshot(bank["iq"]) == IqSample() && Snapshot(bank["computer"]) == ComputerSample()
    ensures Snapshot(bank["math"]) == MathSample() && Snapshot(bank["islamiat"]) == IslamiatSample()
    ensures Snapshot(bank["general"]) == GeneralSample() && Snapshot(bank["english"]) == EnglishSample()
    ensures forall s :: s in bank ==> forall q :: q in bank[s] ==> fresh(q)
  {
    bank := InstantiateBank(IqSample(), ComputerSample(), MathSample(), IslamiatSample(),
                            GeneralSample(), EnglishSample());
  }

  /** Objects made from entries whose correct index names one of their
      options each answer with that option. */
  lemma SnapshotAnswerable(qs: seq<Question>, data: seq<QuestionData>)
    requires Snapshot(qs) == data
    requires forall d :: d in data ==> 0 <= d.correct < |d.options|
    ensures forall q :: q in qs ==> q.CorrectText().Some?
  {
    forall q | q in qs
      ensures q.CorrectText().Some?
    {
      var i :| 0 <= i < |qs| && qs[i] == q;
      assert q.Data() == data[i];
    }
  }

  /** The built-in bank, seen through what a session on "math" relies on:
      two fresh questions, each with a correct index naming an option. */
  method MathBank() returns (bank: SubjectBank)
    ensures "math" in bank && |bank["math"]| == 2
    ensures forall q :: q in bank["math"] ==> q.CorrectText().Some?
    ensures forall q :: q in bank["math"] ==> fresh(q)
  {
    bank := SampleMCQData();
    MathSampleWellFormed();
    SnapshotAnswerable(bank["math"], MathSample());
  }
}
