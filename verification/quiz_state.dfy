/**
 * The stateful part of the quiz controller: the component owns the question
 * list, the popup flag and the frozen result message, and changes them only
 * through its three handlers (answer a question, check the result, dismiss
 * the popup). The derived values are functions of the current state.
 */
module QuizState {
  import opened QuizLogic

  class Quiz {
    var questions: array<Question>
    var showPopup: bool
    var result: Message

    /** There are always six questions, and their texts are the ones mounted initially. */
    ghost predicate Valid()
      reads this, questions
    {
      questions.Length == |InitialQuestions| &&
      forall i :: 0 <= i < questions.Length ==> questions[i].text == InitialQuestions[i].text
    }

    /** The state at mount: six unanswered questions, no popup, no message. */
    constructor ()
      ensures Valid() && fresh(questions)
      ensures questions[..] == InitialQuestions
      ensures !showPopup && result == Empty
    {
      questions := new Question[6](i requires 0 <= i < 6 => InitialQuestions[i]);
      showPopup := false;
      result := Empty;
    }

    /** `totalYes`, recomputed from the current answers. */
    function TotalYes(): (n: nat)
      reads this, questions
      ensures n <= questions.Length
      ensures n == |YesIndices(questions[..])|
    {
      TotalYesCountsYesIndices(questions[..]);
      QuizLogic.TotalYes(questions[..])
    }

    /** `dangerLevel`, recomputed from the current answers. */
    function DangerLevel(): (level: real)
      reads this, questions
      requires Valid()
      ensures 0.0 <= level <= 100.0
    {
      QuizLogic.DangerLevel(questions[..])
    }

    /** `getMeterColor`, for the current answers. */
    function MeterColor(): (c: Color)
      reads this, questions
      requires Valid()
      ensures c == Green <==> TotalYes() <= 1
      ensures c == Yellow <==> 2 <= TotalYes() <= 3
      ensures c == Red <==> TotalYes() >= 4
    {
      MeterColorByCount(questions[..]);
      QuizLogic.MeterColor(DangerLevel())
    }

    /** `handleAnswer`: question `index` gets the answer `isYes`; nothing else changes. */
    method HandleAnswer(index: int, isYes: bool)
      requires Valid() && 0 <= index < questions.Length
      modifies questions
      ensures Valid()
      ensures questions[..] == SetAnswer(old(questions[..]), index, isYes)
      ensures TotalYes() == old(TotalYes())
                          - (if old(questions[index].isYes) then 1 else 0)
                          + (if isYes then 1 else 0)
      ensures showPopup == old(showPopup) && result == old(result)
    {
      questions[index] := questions[index].(isYes := isYes);
      TotalYesAfterSetAnswer(old(questions[..]), index, isYes);
    }

    /** `checkResult`: freezes the message for the current count and shows the popup. */
    method CheckResult()
      requires Valid()
      modifies this`result, this`showPopup
      ensures Valid()
      ensures result == Classify(TotalYes()) && showPopup
      ensures questions == old(questions) && questions[..] == old(questions[..])
    {
      result := Classify(TotalYes());
      showPopup := true;
    }

    /** The popup's dismiss button: hides the popup, keeping the answers and the message. */
    method Dismiss()
      requires Valid()
      modifies this`showPopup
      ensures Valid()
      ensures !showPopup
      ensures result == old(result)
      ensures questions == old(questions) && questions[..] == old(questions[..])
    {
      showPopup := false;
    }
  }

  /**
   * A session starting from four "yes" answers: check, then change one answer and
   * dismiss. The popup shows the message and meter for four answers, and the
   * stored message stays frozen through the later answer and the dismissal; only
   * a new check would change it.
   */
  method CheckThenEdit(quiz: Quiz, index: int, isYes: bool) returns (shown: Message, level: real, color: Color)
    requires quiz.Valid() && quiz.TotalYes() == 4
    requires 0 <= index < quiz.questions.Length
    modifies quiz, quiz.questions
    ensures shown == Offensive && level == 200.0 / 3.0 && color == Red
    ensures quiz.Valid() && quiz.result == Offensive && !quiz.showPopup
  {
    MeterColorByCount(quiz.questions[..]);
    quiz.CheckResult();
    shown, level, color := quiz.result, quiz.DangerLevel(), quiz.MeterColor();
    quiz.HandleAnswer(index, isYes);
    quiz.Dismiss();
  }
}
