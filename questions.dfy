/**
 * The question catalog: the nine personality dimensions, the weight
 * configuration of a question, and the fixed list of 18 questions.
 * Weights are stored as integer tenths (1.2 is written 12).
 */
module Questions {

  /** The nine dimensions, in the order of the `ParameterKey` union. */
  datatype ParameterKey =
    | Respect | Warmth | Responsibility | UniversalTruth | DivineGuidance
    | Mission | HeavenlyWork | Thoroughness | Innovation

  /** The keys in enumeration order; this is also the key order of every profile record. */
  const KEYS: seq<ParameterKey> :=
    [Respect, Warmth, Responsibility, UniversalTruth, DivineGuidance,
     Mission, HeavenlyWork, Thoroughness, Innovation]

  const KEY_COUNT: nat := 9

  /** Position of a key in enumeration order. */
  function KeyIndex(k: ParameterKey): (i: nat)
    ensures i < KEY_COUNT && KEYS[i] == k
  {
    match k
    case Respect => 0
    case Warmth => 1
    case Responsibility => 2
    case UniversalTruth => 3
    case DivineGuidance => 4
    case Mission => 5
    case HeavenlyWork => 6
    case Thoroughness => 7
    case Innovation => 8
  }

  /**
   * A score record over all nine dimensions, stored in key order:
   * `p[KeyIndex(k)]` is the value of dimension `k`.
   */
  type Profile = s: seq<int> | |s| == 9 witness [0, 0, 0, 0, 0, 0, 0, 0, 0]

  /** One entry of a question's weight configuration, in tenths. */
  datatype Weight = Weight(key: ParameterKey, tenths: int)

  /**
   * A question. `parameterKey` is the dimension the scorer credits with the
   * answer; the catalog sets it to the question's first (dominant) weight key.
   * The question text and illustration path are display data and not modelled.
   */
  datatype Question = Question(id: int, weights: seq<Weight>, parameterKey: ParameterKey)

  const QUESTION_COUNT: nat := 18

  const QUESTIONS: seq<Question> := [
    Question(1, [Weight(Respect, 12), Weight(Warmth, 3), Weight(UniversalTruth, -3)],
             Respect),
    Question(2, [Weight(Respect, 10), Weight(HeavenlyWork, 8), Weight(Responsibility, -3)],
             Respect),
    Question(3, [Weight(Warmth, 15), Weight(Thoroughness, -5), Weight(Responsibility, -2)],
             Warmth),
    Question(4, [Weight(Warmth, 10), Weight(Innovation, 5), Weight(Thoroughness, -6)],
             Warmth),
    Question(5, [Weight(Responsibility, 15), Weight(UniversalTruth, 4), Weight(Innovation, -5)],
             Responsibility),
    Question(6, [Weight(Responsibility, 12), Weight(Mission, 6), Weight(Thoroughness, -3)],
             Responsibility),
    Question(7, [Weight(UniversalTruth, 15), Weight(Responsibility, 3), Weight(Respect, -5)],
             UniversalTruth),
    Question(8, [Weight(UniversalTruth, 12), Weight(Warmth, 8), Weight(Thoroughness, -6)],
             UniversalTruth),
    Question(9, [Weight(DivineGuidance, 15), Weight(HeavenlyWork, 5), Weight(Thoroughness, -4)],
             DivineGuidance),
    Question(10, [Weight(DivineGuidance, 12), Weight(Mission, 6), Weight(Thoroughness, -6)],
             DivineGuidance),
    Question(11, [Weight(Mission, 15), Weight(Innovation, 5), Weight(Thoroughness, -3)],
             Mission),
    Question(12, [Weight(Mission, 12), Weight(UniversalTruth, 8), Weight(Respect, -2)],
             Mission),
    Question(13, [Weight(HeavenlyWork, 15), Weight(DivineGuidance, 4), Weight(Innovation, -5)],
             HeavenlyWork),
    Question(14, [Weight(HeavenlyWork, 10), Weight(UniversalTruth, 8), Weight(Thoroughness, -4)],
             HeavenlyWork),
    Question(15, [Weight(Thoroughness, 15), Weight(Responsibility, 3), Weight(Innovation, -8), Weight(DivineGuidance, -3)],
             Thoroughness),
    Question(16, [Weight(Thoroughness, 12), Weight(UniversalTruth, 5), Weight(Warmth, -4)],
             Thoroughness),
    Question(17, [Weight(Innovation, 15), Weight(Mission, 4), Weight(Thoroughness, -10), Weight(HeavenlyWork, -3)],
             Innovation),
    Question(18, [Weight(Innovation, 12), Weight(Responsibility, 5), Weight(DivineGuidance, 3), Weight(Respect, -3)],
             Innovation)
  ]

  /** True when some catalog question has this id (`QUESTIONS.find` succeeds). */
  predicate IsQuestionId(id: int)
  {
    exists i | 0 <= i < |QUESTIONS| :: QUESTIONS[i].id == id
  }

  /** The union has exactly nine members, each enumerated once by KEYS. */
  lemma KeysEnumerateParameterKey()
    ensures |KEYS| == KEY_COUNT
    ensures forall k: ParameterKey :: k in KEYS
    ensures forall i, j | 0 <= i < j < |KEYS| :: KEYS[i] != KEYS[j]
  {
    forall k: ParameterKey ensures k in KEYS {
      assert KEYS[KeyIndex(k)] == k;
    }
  }

  /** Ids run 1..18 in array order, so they are pairwise distinct. */
  lemma QuestionIdsAreSequential()
    ensures |QUESTIONS| == QUESTION_COUNT
    ensures forall i | 0 <= i < |QUESTIONS| :: QUESTIONS[i].id == i + 1
    ensures forall i, j | 0 <= i < j < |QUESTIONS| :: QUESTIONS[i].id != QUESTIONS[j].id
    ensures forall id :: IsQuestionId(id) <==> 1 <= id <= 18
  {
    forall id | 1 <= id <= 18 ensures IsQuestionId(id) {
      assert QUESTIONS[id - 1].id == id;
    }
  }

  /** Every question has three or four weights, each between -1.0 and 1.5. */
  lemma WeightCountsAndRanges()
    ensures forall i | 0 <= i < |QUESTIONS| :: 3 <= |QUESTIONS[i].weights| <= 4
    ensures forall i, j | 0 <= i < |QUESTIONS| && 0 <= j < |QUESTIONS[i].weights| ::
      -10 <= QUESTIONS[i].weights[j].tenths <= 15
  {
  }

  /** Every question has a negative weight: its last one. */
  lemma LastWeightIsNegative()
    ensures forall i | 0 <= i < |QUESTIONS| ::
      QUESTIONS[i].weights[|QUESTIONS[i].weights| - 1].tenths < 0
  {
  }

  /** No question lists a dimension twice (they are object keys). */
  lemma WeightKeysAreDistinct()
    ensures forall i, j, j' | 0 <= i < |QUESTIONS| && 0 <= j < j' < |QUESTIONS[i].weights| ::
      QUESTIONS[i].weights[j].key != QUESTIONS[i].weights[j'].key
  {
  }

  /** The first weight of every question is positive and strictly the largest. */
  lemma FirstWeightDominates()
    ensures forall i | 0 <= i < |QUESTIONS| :: QUESTIONS[i].weights[0].tenths > 0
    ensures forall i, j | 0 <= i < |QUESTIONS| && 0 < j < |QUESTIONS[i].weights| ::
      QUESTIONS[i].weights[j].tenths < QUESTIONS[i].weights[0].tenths
  {
  }

  /** Each question's scoring dimension is its first weight key. */
  lemma ParameterKeyIsFirstWeightKey()
    ensures forall i | 0 <= i < |QUESTIONS| ::
      QUESTIONS[i].parameterKey == QUESTIONS[i].weights[0].key
  {
  }

  /**
   * Questions 2k-1 and 2k (array indices 2k-2 and 2k-1) score the k-th
   * dimension, so every dimension is scored by exactly two questions.
   */
  lemma TwoQuestionsPerDimension()
    ensures forall i | 0 <= i < |QUESTIONS| :: QUESTIONS[i].parameterKey == KEYS[i / 2]
  {
  }

  /** `KeyIndex` and `KEYS` are inverse: position d of `KEYS` has index d. */
  lemma KeyIndexInvertsKeys()
    ensures forall d | 0 <= d < KEY_COUNT :: KeyIndex(KEYS[d]) == d
  {
    KeysEnumerateParameterKey();
  }

  /** The facts about one catalog entry that scoring relies on. */
  lemma QuestionAt(n: nat)
    requires n < QUESTION_COUNT
    ensures n < |QUESTIONS| && QUESTIONS[n].id == n + 1 && QUESTIONS[n].parameterKey == KEYS[n / 2]
  {
    QuestionIdsAreSequential();
    TwoQuestionsPerDimension();
  }
}
