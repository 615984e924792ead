/**
 * The pure part of the Joke Danger Meter's quiz controller: the question
 * records, the count of "yes" answers, the danger-level percentage, the
 * result message picked by count band and the colour band of the meter.
 * Everything here is a value; the component that owns and changes this
 * state is the class in module QuizState.
 */
module QuizLogic {

  /** One quiz question: its display text and whether it is answered "yes". */
  datatype Question = Question(text: string, isYes: bool)

  /** The result shown in the popup. `Empty` is the state before the first check. */
  datatype Message = Empty | Safe | Caution | Offensive | Jail

  /** The three colour bands of the danger meter. */
  datatype Color = Green | Yellow | Red

  /** The six questions the component mounts with, every answer "no". */
  const InitialQuestions: seq<Question> := [
    Question("Is your joke about a political party?", false),
    Question("Does your joke involve religion?", false),
    Question("Is it a dark humor joke?", false),
    Question("Does it target a specific gender?", false),
    Question("Is your joke about someone's mom/dad?", false),
    Question("Is it a joke about a taboo topic?", false)
  ]

  /** The display string of each message. */
  function MessageText(m: Message): (s: string)
    ensures s == "" <==> m == Empty
  {
    match m
    case Empty => ""
    case Jail => "🚨 Police incoming! You're going to jail! 🚔"
    case Offensive => "⚠️ Highly offensive! Maybe reconsider?"
    case Caution => "😬 Proceed with caution..."
    case Safe => "✅ Your joke seems safe!"
  }

  /** Distinct messages are shown as distinct strings, so storing a Message loses nothing. */
  lemma MessageTextInjective(a: Message, b: Message)
    ensures MessageText(a) == MessageText(b) ==> a == b
  {
  }

  // ---------------------------------------------------------------------------
  // Counting the "yes" answers

  /** The questions answered "yes", in their original order (the filter step of `totalYes`). */
  function YesOnly(qs: seq<Question>): (r: seq<Question>)
    ensures |r| <= |qs|
    ensures forall q :: q in r <==> q in qs && q.isYes
  {
    if qs == [] then []
    else
      var init := qs[..|qs| - 1];
      var last := qs[|qs| - 1];
      assert qs == init + [last];
      if last.isYes then YesOnly(init) + [last] else YesOnly(init)
  }

  /** The filter keeps every copy of a question answered "yes" and drops every copy of the others. */
  lemma {:induction false} YesOnlyKeepsEveryCopy(qs: seq<Question>)
    ensures forall q :: multiset(YesOnly(qs))[q] == if q.isYes then multiset(qs)[q] else 0
  {
    if qs != [] {
      var init := qs[..|qs| - 1];
      var last := qs[|qs| - 1];
      assert qs == init + [last];
      YesOnlyKeepsEveryCopy(init);
      assert multiset(qs) == multiset(init) + multiset{last};
      assert YesOnly(qs) == if last.isYes then YesOnly(init) + [last] else YesOnly(init);
    }
  }

  /** The number of questions answered "yes". */
  function TotalYes(qs: seq<Question>): (n: nat)
    ensures n <= |qs|
  {
    |YesOnly(qs)|
  }

  /** The count of a non-empty list is the count of all but its last question, plus the last one's answer. */
  lemma TotalYesOfLast(qs: seq<Question>)
    requires qs != []
    ensures TotalYes(qs) == TotalYes(qs[..|qs| - 1]) + (if qs[|qs| - 1].isYes then 1 else 0)
  {
  }

  /** The positions of the questions answered "yes"; an independent account of the count. */
  ghost function YesIndices(qs: seq<Question>): set<int>
  {
    set i | 0 <= i < |qs| && qs[i].isYes
  }

  /** The "yes" positions of a non-empty list: those of all but its last question, plus possibly the last position. */
  lemma YesIndicesOfLast(qs: seq<Question>)
    requires qs != []
    ensures |qs| - 1 !in YesIndices(qs[..|qs| - 1])
    ensures YesIndices(qs) == YesIndices(qs[..|qs| - 1]) + (if qs[|qs| - 1].isYes then {|qs| - 1} else {})
  {
    var init := qs[..|qs| - 1];
    forall i | 0 <= i < |init| ensures init[i] == qs[i] {}
  }

  /** The filter-and-length count equals the number of positions answered "yes". */
  lemma {:induction false} TotalYesCountsYesIndices(qs: seq<Question>)
    ensures TotalYes(qs) == |YesIndices(qs)|
  {
    if qs != [] {
      var init := qs[..|qs| - 1];
      TotalYesCountsYesIndices(init);
      TotalYesOfLast(qs);
      YesIndicesOfLast(qs);
    }
  }

  /** No question is answered "yes" exactly when the count is zero. */
  lemma {:induction false} TotalYesZero(qs: seq<Question>)
    ensures TotalYes(qs) == 0 <==> forall i :: 0 <= i < |qs| ==> !qs[i].isYes
  {
    if qs != [] {
      var init := qs[..|qs| - 1];
      TotalYesZero(init);
      TotalYesOfLast(qs);
      assert forall i :: 0 <= i < |init| ==> init[i] == qs[i];
    }
  }

  /** Every question is answered "yes" exactly when the count equals the number of questions. */
  lemma {:induction false} TotalYesAll(qs: seq<Question>)
    ensures TotalYes(qs) == |qs| <==> forall i :: 0 <= i < |qs| ==> qs[i].isYes
  {
    if qs != [] {
      var init := qs[..|qs| - 1];
      TotalYesAll(init);
      TotalYesOfLast(qs);
      assert forall i :: 0 <= i < |init| ==> init[i] == qs[i];
    }
  }

  // ---------------------------------------------------------------------------
  // The danger level

  /**
   * A percentage of a positive whole lies between 0 and 100 for a part between 0 and
   * the whole; it is 0 only for a zero part and 100 only for the whole.
   */
  lemma Percentage(part: real, whole: real)
    requires 0.0 <= part <= whole && whole > 0.0
    ensures 0.0 <= part / whole * 100.0 <= 100.0
    ensures part / whole * 100.0 == 0.0 <==> part == 0.0
    ensures part / whole * 100.0 == 100.0 <==> part == whole
  {
    var share := part / whole;
    assert share * whole == part;
    assert share == 1.0 ==> part == whole;
  }

  /** `dangerLevel`: the share of "yes" answers as a percentage, computed exactly. */
  function DangerLevel(qs: seq<Question>): (level: real)
    requires |qs| > 0
    ensures 0.0 <= level <= 100.0
  {
    Percentage(TotalYes(qs) as real, |qs| as real);
    (TotalYes(qs) as real / |qs| as real) * 100.0
  }

  /** The level is 0 exactly when no answer is "yes", and 100 exactly when every answer is. */
  lemma DangerLevelExtremes(qs: seq<Question>)
    requires |qs| > 0
    ensures DangerLevel(qs) == 0.0 <==> forall i :: 0 <= i < |qs| ==> !qs[i].isYes
    ensures DangerLevel(qs) == 100.0 <==> forall i :: 0 <= i < |qs| ==> qs[i].isYes
  {
    TotalYesZero(qs);
    TotalYesAll(qs);
    Percentage(TotalYes(qs) as real, |qs| as real);
  }

  // ---------------------------------------------------------------------------
  // Answering a question

  /** The list after question `i` is answered `isYes` (the update made by `handleAnswer`). */
  function SetAnswer(qs: seq<Question>, i: int, isYes: bool): (r: seq<Question>)
    requires 0 <= i < |qs|
    ensures |r| == |qs|
    ensures r[i].isYes == isYes && r[i].text == qs[i].text
    ensures forall j :: 0 <= j < |qs| && j != i ==> r[j] == qs[j]
  {
    qs[i := qs[i].(isYes := isYes)]
  }

  /** Giving the same answer twice is the same as giving it once. */
  lemma SetAnswerIdempotent(qs: seq<Question>, i: int, isYes: bool)
    requires 0 <= i < |qs|
    ensures SetAnswer(SetAnswer(qs, i, isYes), i, isYes) == SetAnswer(qs, i, isYes)
  {
  }

  /** Answering a question and then restoring its prior answer gives back the list, its count and its level. */
  lemma SetAnswerUndo(qs: seq<Question>, i: int, isYes: bool)
    requires 0 <= i < |qs|
    ensures SetAnswer(SetAnswer(qs, i, isYes), i, qs[i].isYes) == qs
    ensures TotalYes(SetAnswer(SetAnswer(qs, i, isYes), i, qs[i].isYes)) == TotalYes(qs)
    ensures DangerLevel(SetAnswer(SetAnswer(qs, i, isYes), i, qs[i].isYes)) == DangerLevel(qs)
  {
    var r := SetAnswer(SetAnswer(qs, i, isYes), i, qs[i].isYes);
    assert forall j :: 0 <= j < |qs| ==> r[j] == qs[j];
  }

  /**
   * Answering one question moves the count by at most one: up by one when a "no"
   * becomes "yes", down by one when a "yes" becomes "no", unchanged otherwise.
   */
  lemma {:induction false} TotalYesAfterSetAnswer(qs: seq<Question>, i: int, isYes: bool)
    requires 0 <= i < |qs|
    ensures TotalYes(SetAnswer(qs, i, isYes))
         == TotalYes(qs) - (if qs[i].isYes then 1 else 0) + (if isYes then 1 else 0)
  {
    var r := SetAnswer(qs, i, isYes);
    var n := |qs|;
    TotalYesOfLast(qs);
    TotalYesOfLast(r);
    SetAnswerOfInit(qs, i, isYes);
    if i < n - 1 {
      TotalYesAfterSetAnswer(qs[..n - 1], i, isYes);
    }
  }

  /** Answering a question changes the list without its last element as it changes the whole list. */
  lemma SetAnswerOfInit(qs: seq<Question>, i: int, isYes: bool)
    requires 0 <= i < |qs|
    ensures i == |qs| - 1 ==> SetAnswer(qs, i, isYes)[..|qs| - 1] == qs[..|qs| - 1]
    ensures i < |qs| - 1 ==> SetAnswer(qs, i, isYes)[..|qs| - 1] == SetAnswer(qs[..|qs| - 1], i, isYes)
    ensures i < |qs| - 1 ==> SetAnswer(qs, i, isYes)[|qs| - 1] == qs[|qs| - 1]
  {
  }

  // ---------------------------------------------------------------------------
  // Classifying the count

  /** The message `checkResult` picks for a count of "yes" answers. */
  function Classify(count: nat): (m: Message)
    ensures m != Empty
  {
    if count == 6 then Jail
    else if count >= 4 then Offensive
    else if count >= 2 then Caution
    else Safe
  }

  /** The four bands cover the counts 0..6 and do not overlap. */
  lemma ClassifyBands(count: nat)
    requires count <= 6
    ensures Classify(count) == Jail <==> count == 6
    ensures Classify(count) == Offensive <==> 4 <= count <= 5
    ensures Classify(count) == Caution <==> 2 <= count <= 3
    ensures Classify(count) == Safe <==> count <= 1
  {
  }

  /** The ordering of the result messages from harmless to worst. */
  function Severity(m: Message): nat
  {
    match m
    case Empty => 0
    case Safe => 1
    case Caution => 2
    case Offensive => 3
    case Jail => 4
  }

  /** More "yes" answers never give a milder message. */
  lemma ClassifyMonotone(a: nat, b: nat)
    requires a <= b <= 6
    ensures Severity(Classify(a)) <= Severity(Classify(b))
  {
  }

  // ---------------------------------------------------------------------------
  // The meter colour

  /** `getMeterColor`: the colour band of a danger level; each upper bound is inclusive. */
  function MeterColor(level: real): (c: Color)
    ensures c == Green <==> level <= 33.0
    ensures c == Yellow <==> 33.0 < level <= 66.0
    ensures c == Red <==> 66.0 < level
  {
    if level <= 33.0 then Green
    else if level <= 66.0 then Yellow
    else Red
  }

  /** The boundary values fall into the lower band. */
  lemma MeterColorBoundaries()
    ensures MeterColor(0.0) == Green && MeterColor(33.0) == Green
    ensures MeterColor(34.0) == Yellow && MeterColor(66.0) == Yellow
    ensures MeterColor(67.0) == Red && MeterColor(100.0) == Red
  {
  }

  /** A higher level never gives a milder colour. */
  lemma MeterColorMonotone(a: real, b: real)
    requires a <= b
    ensures MeterColor(a) == Red ==> MeterColor(b) == Red
    ensures MeterColor(b) == Green ==> MeterColor(a) == Green
  {
  }

  /** With six questions the colour bands are count bands: green 0..1, yellow 2..3, red 4..6. */
  lemma MeterColorByCount(qs: seq<Question>)
    requires |qs| == 6
    ensures MeterColor(DangerLevel(qs)) == Green <==> TotalYes(qs) <= 1
    ensures MeterColor(DangerLevel(qs)) == Yellow <==> 2 <= TotalYes(qs) <= 3
    ensures MeterColor(DangerLevel(qs)) == Red <==> TotalYes(qs) >= 4
  {
    var n := TotalYes(qs);
    assert DangerLevel(qs) == n as real * 100.0 / 6.0;
  }

  /** The colour a message band corresponds to on the meter. */
  function BandColor(m: Message): Color
    requires m != Empty
  {
    match m
    case Safe => Green
    case Caution => Yellow
    case Offensive => Red
    case Jail => Red
  }

  /** The meter always agrees with the message a check would show: green-safe, yellow-caution, red-offensive or jail. */
  lemma MeterAgreesWithMessage(qs: seq<Question>)
    requires |qs| == 6
    ensures MeterColor(DangerLevel(qs)) == BandColor(Classify(TotalYes(qs)))
  {
    MeterColorByCount(qs);
    ClassifyBands(TotalYes(qs));
  }

  // ---------------------------------------------------------------------------
  // The initial state

  /** At mount there are six questions, none answered "yes", so count and level are zero. */
  lemma InitialState()
    ensures |InitialQuestions| == 6
    ensures forall i :: 0 <= i < 6 ==> !InitialQuestions[i].isYes
    ensures TotalYes(InitialQuestions) == 0 && DangerLevel(InitialQuestions) == 0.0
    ensures MeterColor(DangerLevel(InitialQuestions)) == Green
  {
    TotalYesZero(InitialQuestions);
  }
}
