/**
 * The quiz screen: a stack of one card per question, of which only the
 * active card takes answers; answered cards are tilted by their answer.
 * The finish callback is modelled as the value a click returns.
 */
module Quiz {
  import opened Wrappers
  import opened Questions

  /** The values of the five answer buttons, left to right. */
  const OPTIONS: seq<int> := [5, 4, 3, 2, 1]

  /** The keys of `m` are exactly the ids of the first `n` questions. */
  ghost predicate AnswersFirst(m: map<int, int>, n: nat)
  {
    forall id :: id in m <==> 1 <= id <= n
  }

  /**
   * Recording an answer to question n+1 extends answers to the first n
   * questions to the first n+1, and keeps answers to all of them.
   */
  lemma RecordingAnAnswer(m: map<int, int>, n: nat, v: int)
    ensures AnswersFirst(m, n) ==> AnswersFirst(m[n + 1 := v], n + 1)
    ensures AnswersFirst(m, n + 1) ==> AnswersFirst(m[n + 1 := v], n + 1)
  {
  }

  class QuizView {
    var currentIndex: nat
    var answers: map<int, int>

    /**
     * The answers are those to the questions before the current one; only
     * after the last question is answered does the current one have an
     * answer too. Every answer is a button value.
     */
    ghost predicate Valid()
      reads this
    {
      currentIndex < QUESTION_COUNT
      && (AnswersFirst(answers, currentIndex)
          || (currentIndex == QUESTION_COUNT - 1 && AnswersFirst(answers, QUESTION_COUNT)))
      && forall id | id in answers :: answers[id] in OPTIONS
    }

    constructor()
      ensures Valid() && currentIndex == 0 && answers == map[]
    {
      currentIndex := 0;
      answers := map[];
    }

    /**
     * `handleAnswer`: records `value` for the current question, then moves to
     * the next question, or, on the last one, hands the answers to the
     * finish callback.
     */
    method HandleAnswer(value: int) returns (finished: Option<map<int, int>>)
      requires Valid() && value in OPTIONS
      modifies this
      ensures Valid()
      ensures answers == old(answers)[old(currentIndex) + 1 := value]
      ensures old(currentIndex) < QUESTION_COUNT - 1 ==> currentIndex == old(currentIndex) + 1 && finished == None
      ensures old(currentIndex) == QUESTION_COUNT - 1 ==> currentIndex == old(currentIndex) && finished == Some(answers)
    {
      QuestionAt(currentIndex);
      var questionId := QUESTIONS[currentIndex].id;
      var newAnswers := answers[questionId := value];
      RecordingAnAnswer(answers, currentIndex, value);
      answers := newAnswers;
      if currentIndex < QUESTION_COUNT - 1 {
        currentIndex := currentIndex + 1;
        finished := None;
      } else {
        finished := Some(newAnswers);
      }
    }

    /**
     * A click on answer button `value` of card `cardIndex`: only the active
     * card reacts; a click on any other card changes nothing.
     */
    method Click(cardIndex: nat, value: int) returns (finished: Option<map<int, int>>)
      requires Valid() && cardIndex < QUESTION_COUNT && value in OPTIONS
      modifies this
      ensures Valid()
      ensures cardIndex != old(currentIndex) ==>
        currentIndex == old(currentIndex) && answers == old(answers) && finished == None
      ensures cardIndex == old(currentIndex) ==> answers == old(answers)[old(currentIndex) + 1 := value]
      ensures cardIndex == old(currentIndex) && old(currentIndex) < QUESTION_COUNT - 1 ==>
        currentIndex == old(currentIndex) + 1 && finished == None
      ensures cardIndex == old(currentIndex) && old(currentIndex) == QUESTION_COUNT - 1 ==>
        currentIndex == old(currentIndex) && finished == Some(answers)
    {
      if cardIndex == currentIndex {
        finished := HandleAnswer(value);
      } else {
        finished := None;
      }
    }
  }

  /**
   * Answering each card in turn with `values`: the finish callback fires
   * exactly once, after the last card, with question i+1 answered by
   * `values[i]` and no other entry.
   */
  method AnswerEveryQuestion(values: seq<int>) returns (finishes: seq<map<int, int>>)
    requires |values| == QUESTION_COUNT && forall i | 0 <= i < |values| :: values[i] in OPTIONS
    ensures |finishes| == 1
    ensures AnswersFirst(finishes[0], QUESTION_COUNT)
    ensures forall i | 0 <= i < QUESTION_COUNT :: finishes[0][i + 1] == values[i]
  {
    var quiz := new QuizView();
    finishes := [];
    var i := 0;
    while i < QUESTION_COUNT
      invariant 0 <= i <= QUESTION_COUNT
      invariant quiz.Valid()
      invariant i < QUESTION_COUNT ==> quiz.currentIndex == i && finishes == []
      invariant i == QUESTION_COUNT ==> |finishes| == 1 && finishes[0] == quiz.answers
      invariant AnswersFirst(quiz.answers, i)
      invariant forall j | 0 <= j < i :: quiz.answers[j + 1] == values[j]
    {
      var finished := quiz.Click(i, values[i]);
      if finished.Some? {
        finishes := finishes + [finished.value];
      }
      i := i + 1;
    }
  }

  // ---------------------------------------------------------------------
  // Card layout
  // ---------------------------------------------------------------------

  datatype CardState = Future | Active | History

  /** The state of card `index` while question `currentIndex` is shown. */
  function CardStateOf(index: nat, currentIndex: nat): CardState
  {
    if index == currentIndex then Active
    else if index < currentIndex then History
    else Future
  }

  /**
   * Cards before the current one are history and cards after it are
   * future; the current card is the only active one.
   */
  lemma OneActiveCard(currentIndex: nat, i: nat, j: nat)
    ensures CardStateOf(i, currentIndex) == Active <==> i == currentIndex
    ensures CardStateOf(i, currentIndex) == History <==> i < currentIndex
    ensures CardStateOf(i, currentIndex) == Future <==> i > currentIndex
    ensures CardStateOf(i, currentIndex) == Active && CardStateOf(j, currentIndex) == Active ==> i == j
  {
  }

  /** The tilt an answer gives its card: 5 * (3 - v) degrees for v in 1..5, none otherwise. */
  function Tilt(answer: Option<int>): (t: int)
    ensures -10 <= t <= 10 && t % 5 == 0
    ensures t < 0 <==> answer == Some(4) || answer == Some(5)
    ensures t > 0 <==> answer == Some(1) || answer == Some(2)
  {
    if answer.Some? && 1 <= answer.value <= 5 then 5 * (3 - answer.value) else 0
  }

  /** The per-card jitter, between -2 and 1. */
  function Jitter(index: nat): (j: int)
    ensures -2 <= j <= 1
  {
    ((index * 13) % 4) - 2
  }

  /** The jitter depends only on the card's position modulo 4: cards 0, 1, 2, 3 get -2, -1, 0, 1. */
  lemma JitterFollowsIndexModFour(index: nat)
    ensures Jitter(index) == index % 4 - 2
  {
    assert index * 13 == 4 * (3 * index) + index;
  }

  /**
   * The resting pose of card `index`: its answer's tilt (left for agreement,
   * right for disagreement, none for neutral or no answer), plus the jitter
   * on history cards only; the sideways offset is always twice the tilt.
   */
  method CardPose(index: nat, currentIndex: nat, answer: Option<int>) returns (historyRotate: int, historyX: int)
    ensures historyX == 2 * historyRotate
    ensures historyRotate == Tilt(answer) + (if CardStateOf(index, currentIndex) == History then Jitter(index) else 0)
  {
    historyRotate := 0;
    historyX := 0;
    if answer.Some? && answer.value != 0 {
      match answer.value
      case 5 =>
        historyRotate := -10;
        historyX := -20;
      case 4 =>
        historyRotate := -5;
        historyX := -10;
      case 3 =>
        historyRotate := 0;
        historyX := 0;
      case 2 =>
        historyRotate := 5;
        historyX := 10;
      case 1 =>
        historyRotate := 10;
        historyX := 20;
      case _ =>
    }
    var randomJitter := ((index * 13) % 4) - 2;
    if CardStateOf(index, currentIndex) == History {
      historyRotate := historyRotate + randomJitter;
      historyX := historyX + randomJitter * 2;
    }
  }

  /** Opposite answers tilt by the same amount in opposite directions, and the neutral answer not at all. */
  lemma OppositeAnswersTiltOpposite(v: int)
    requires 1 <= v <= 5
    ensures Tilt(Some(v)) == -Tilt(Some(6 - v))
    ensures Tilt(Some(3)) == 0
  {
  }
}
