/**
 * The diagnosis pipeline: answers -> nine dimension scores -> the nearest
 * animal type and a templated comment on the strongest dimension.
 *
 * Scores, ideal values and distances are integers, so every comparison is
 * exact. The scorer credits each answer to its question's `parameterKey`;
 * see `ScoresAsWritten` for what the shipped code does instead.
 */
module Diagnosis {
  import opened Wrappers
  import opened Questions
  import opened Animals

  // ---------------------------------------------------------------------
  // Label tables and the comment template
  // ---------------------------------------------------------------------

  /** `PARAM_LABELS`: the display label of each dimension. */
  function ParamLabel(k: ParameterKey): string
  {
    match k
    case Respect => "みんなを尊重"
    case Warmth => "あったかハート"
    case Responsibility => "やりぬく力"
    case UniversalTruth => "正義と愛"
    case DivineGuidance => "不思議な運"
    case Mission => "未来への想い"
    case HeavenlyWork => "感謝の心"
    case Thoroughness => "キッチリ徹底"
    case Innovation => "新しいこと好き"
  }

  /** The `affirmations` table of the comment generator. */
  function Affirmation(k: ParameterKey): string
  {
    match k
    case Respect => "相手を思いやる心は、信頼を築く最強の武器じゃ。"
    case Warmth => "その優しさが、まわりの空気をあたたかくしておるのう。"
    case Responsibility => "最後までやり遂げる力は、誰かが見ておるもんじゃよ。"
    case UniversalTruth => "正しさを愛するその心、とても美しいのう。"
    case DivineGuidance => "不思議な力に守られておる。流れに身を任せるのもまた一興じゃ。"
    case Mission => "遠い未来を思うその眼差しが、道を開いていくんじゃな。"
    case HeavenlyWork => "感謝の心を持つ者は、いつまでも愛されるもんじゃよ。"
    case Thoroughness => "細部へのこだわりが、神を宿らせるんじゃな。"
    case Innovation => "新しい風を吹かせるその勇気が、世界を変えていくんじゃ。"
  }

  const COMMENT_OPENING: string := "ふむ…… いまのあなたは、『"
  const COMMENT_BRIDGE: string := "』のちからが、じょじょに出てきとるようじゃ。"

  /** The comment praising dimension `k`: opening, label, bridge, affirmation. */
  function CommentFor(k: ParameterKey): string
  {
    COMMENT_OPENING + ParamLabel(k) + COMMENT_BRIDGE + Affirmation(k)
  }

  /** No two dimensions share a label, so a label identifies its dimension. */
  lemma LabelsAreDistinct()
    ensures forall k1: ParameterKey, k2: ParameterKey :: ParamLabel(k1) == ParamLabel(k2) ==> k1 == k2
  {
  }

  // ---------------------------------------------------------------------
  // calculateScores
  // ---------------------------------------------------------------------

  const ZERO_SCORES: Profile := [0, 0, 0, 0, 0, 0, 0, 0, 0]

  /** `scores[k] += v`. */
  function AddTo(p: Profile, k: ParameterKey, v: int): (r: Profile)
    ensures r[KeyIndex(k)] == p[KeyIndex(k)] + v
    ensures forall d | 0 <= d < KEY_COUNT && d != KeyIndex(k) :: r[d] == p[d]
  {
    p[KeyIndex(k) := p[KeyIndex(k)] + v]
  }

  /** `qs.find(q => q.id === id)`: the first question in `qs` with this id. */
  function Find(qs: seq<Question>, id: int): (r: Option<Question>)
    ensures r.None? <==> forall i | 0 <= i < |qs| :: qs[i].id != id
    ensures r.Some? ==> exists i | 0 <= i < |qs| ::
      qs[i] == r.value && r.value.id == id && forall j | 0 <= j < i :: qs[j].id != id
  {
    if qs == [] then None
    else if qs[0].id == id then Some(qs[0])
    else
      var r := Find(qs[1..], id);
      assert r.Some? ==> exists i | 0 <= i < |qs[1..]| ::
        qs[1..][i] == r.value && r.value.id == id && forall j | 0 <= j < i :: qs[1..][j].id != id;
      r
  }

  /** What question `q` contributes to dimension `k` under `answers`. */
  function Credit(answers: map<int, int>, q: Question, k: ParameterKey): int
  {
    if q.id in answers && q.parameterKey == k then answers[q.id] else 0
  }

  /** The total credited to dimension `k` by the questions `qs`. */
  function KeySum(answers: map<int, int>, qs: seq<Question>, k: ParameterKey): int
  {
    if qs == [] then 0 else Credit(answers, qs[0], k) + KeySum(answers, qs[1..], k)
  }

  /**
   * The score record the scorer should produce over catalog `qs`: each
   * dimension holds the sum of the answers to the questions that score it.
   * It depends on no order of the answers.
   */
  function ScoresOver(answers: map<int, int>, qs: seq<Question>): Profile
  {
    seq(KEY_COUNT, d requires 0 <= d < KEY_COUNT => KeySum(answers, qs, KEYS[d]))
  }

  /** The score record over the shipped catalog. */
  function Scores(answers: map<int, int>): Profile
  {
    ScoresOver(answers, QUESTIONS)
  }

  predicate DistinctIds(qs: seq<Question>)
  {
    forall i, j | 0 <= i < j < |qs| :: qs[i].id != qs[j].id
  }

  /**
   * `calculateScores`: starts from nine zeros and, for each answer whose id
   * names a catalog question, adds the raw value to that question's
   * dimension.
   */
  method CalculateScores(answers: map<int, int>) returns (scores: Profile)
    ensures scores == Scores(answers)
  {
    QuestionIdsAreSequential();
    scores := CalculateScoresOver(answers, QUESTIONS);
  }

  /**
   * The loop of `calculateScores`, over a catalog `qs` whose ids are
   * distinct. The answers are visited in an arbitrary order.
   */
  method CalculateScoresOver(answers: map<int, int>, qs: seq<Question>) returns (scores: Profile)
    requires DistinctIds(qs)
    ensures scores == ScoresOver(answers, qs)
  {
    scores := ZERO_SCORES;
    var pending := answers.Keys;
    NoAnswersScoreZero(qs);
    assert answers - pending == map[];
    while pending != {}
      invariant pending <= answers.Keys
      invariant scores == ScoresOver(answers - pending, qs)
      decreases |pending|
    {
      if forall id :: id !in pending {
        assert false;  // the loop guard says `pending` has a member
      }
      var questionId :| questionId in pending;
      var question := Find(qs, questionId);
      ghost var seen := answers - pending;
      ScoresAfterAnswer(seen, qs, questionId, answers[questionId]);
      if question.Some? {
        scores := AddTo(scores, question.value.parameterKey, answers[questionId]);
      }
      pending := pending - {questionId};
      assert answers - pending == seen[questionId := answers[questionId]];
    }
    assert answers - pending == answers;
  }

  lemma {:induction false} KeySumOfNoAnswers(qs: seq<Question>, k: ParameterKey)
    ensures KeySum(map[], qs, k) == 0
  {
    if qs != [] {
      KeySumOfNoAnswers(qs[1..], k);
    }
  }

  /** With no answers, all nine scores are 0. */
  lemma NoAnswersScoreZero(qs: seq<Question>)
    ensures ScoresOver(map[], qs) == ZERO_SCORES
  {
    forall d | 0 <= d < KEY_COUNT ensures ScoresOver(map[], qs)[d] == 0 {
      KeySumOfNoAnswers(qs, KEYS[d]);
    }
  }

  lemma {:induction false} KeySumIgnoresUnmatched(m: map<int, int>, qs: seq<Question>, k: ParameterKey, id: int, v: int)
    requires forall i | 0 <= i < |qs| :: qs[i].id != id
    ensures KeySum(m[id := v], qs, k) == KeySum(m, qs, k)
  {
    if qs != [] {
      KeySumIgnoresUnmatched(m, qs[1..], k, id, v);
    }
  }

  lemma {:induction false} KeySumCreditsMatched(m: map<int, int>, qs: seq<Question>, k: ParameterKey, id: int, v: int)
    requires DistinctIds(qs) && id !in m && Find(qs, id).Some?
    ensures KeySum(m[id := v], qs, k)
         == KeySum(m, qs, k) + (if Find(qs, id).value.parameterKey == k then v else 0)
  {
    if qs[0].id == id {
      KeySumIgnoresUnmatched(m, qs[1..], k, id, v);
    } else {
      KeySumCreditsMatched(m, qs[1..], k, id, v);
    }
  }

  /** One more answer: credited to its question's dimension, or ignored when its id names no question. */
  lemma ScoresAfterAnswer(m: map<int, int>, qs: seq<Question>, id: int, v: int)
    requires DistinctIds(qs) && id !in m
    ensures ScoresOver(m[id := v], qs) == match Find(qs, id)
      case Some(q) => AddTo(ScoresOver(m, qs), q.parameterKey, v)
      case None => ScoresOver(m, qs)
  {
    if Find(qs, id).Some? {
      KnownAnswerCreditsItsDimension(m, qs, id, v);
    } else {
      UnknownAnswerIsIgnored(m, qs, id, v);
    }
  }

  /** An answer whose id names no question leaves every score unchanged. */
  lemma UnknownAnswerIsIgnored(m: map<int, int>, qs: seq<Question>, id: int, v: int)
    requires forall i | 0 <= i < |qs| :: qs[i].id != id
    ensures ScoresOver(m[id := v], qs) == ScoresOver(m, qs)
  {
    forall d | 0 <= d < KEY_COUNT ensures ScoresOver(m[id := v], qs)[d] == ScoresOver(m, qs)[d] {
      KeySumIgnoresUnmatched(m, qs, KEYS[d], id, v);
    }
  }

  /**
   * A new answer to a question of the catalog adds its raw value to exactly
   * that question's dimension; the other eight are unchanged.
   */
  lemma KnownAnswerCreditsItsDimension(m: map<int, int>, qs: seq<Question>, id: int, v: int)
    requires DistinctIds(qs) && id !in m && Find(qs, id).Some?
    ensures ScoresOver(m[id := v], qs) == AddTo(ScoresOver(m, qs), Find(qs, id).value.parameterKey, v)
  {
    var k := Find(qs, id).value.parameterKey;
    KeyIndexInvertsKeys();
    forall d | 0 <= d < KEY_COUNT
      ensures ScoresOver(m[id := v], qs)[d] == AddTo(ScoresOver(m, qs), k, v)[d]
    {
      KeySumCreditsMatched(m, qs, KEYS[d], id, v);
      assert KEYS[d] == k <==> d == KeyIndex(k);
    }
  }

  /** The sum of the nine scores. */
  function Total(p: Profile): int
  {
    p[0] + p[1] + p[2] + p[3] + p[4] + p[5] + p[6] + p[7] + p[8]
  }

  /** The sum of the answers given to the questions `qs`. */
  function AnsweredSum(answers: map<int, int>, qs: seq<Question>): int
  {
    if qs == [] then 0
    else (if qs[0].id in answers then answers[qs[0].id] else 0) + AnsweredSum(answers, qs[1..])
  }

  lemma {:induction false} KeySumsAddUp(m: map<int, int>, qs: seq<Question>)
    ensures KeySum(m, qs, Respect) + KeySum(m, qs, Warmth) + KeySum(m, qs, Responsibility)
          + KeySum(m, qs, UniversalTruth) + KeySum(m, qs, DivineGuidance) + KeySum(m, qs, Mission)
          + KeySum(m, qs, HeavenlyWork) + KeySum(m, qs, Thoroughness) + KeySum(m, qs, Innovation)
         == AnsweredSum(m, qs)
  {
    if qs != [] {
      KeySumsAddUp(m, qs[1..]);
    }
  }

  /**
   * The nine scores add up to the sum of the answers given to catalog
   * questions: every such answer is counted once, in one dimension.
   */
  lemma ScoresTotalIsAnsweredSum(m: map<int, int>)
    ensures Total(Scores(m)) == AnsweredSum(m, QUESTIONS)
  {
    KeySumsAddUp(m, QUESTIONS);
  }

  /** Every catalog question is answered. */
  predicate AnswersEveryQuestion(answers: map<int, int>)
  {
    forall id | 1 <= id <= QUESTION_COUNT :: id in answers
  }

  /** The catalog's layout: 18 questions, question i with id i + 1 scoring dimension i / 2. */
  predicate PairedLayout(qs: seq<Question>)
  {
    |qs| == QUESTION_COUNT
    && forall i | 0 <= i < |qs| :: qs[i].id == i + 1 && i / 2 < |KEYS| && qs[i].parameterKey == KEYS[i / 2]
  }

  lemma {:induction false} KeySumOverSuffix(m: map<int, int>, qs: seq<Question>, n: nat, d: nat)
    requires PairedLayout(qs)
    requires forall id | 1 <= id <= QUESTION_COUNT :: id in m
    requires n <= QUESTION_COUNT && d < KEY_COUNT
    ensures KeySum(m, qs[n..], KEYS[d])
         == (if n <= 2 * d then m[2 * d + 1] else 0) + (if n <= 2 * d + 1 then m[2 * d + 2] else 0)
    decreases QUESTION_COUNT - n
  {
    if n < QUESTION_COUNT {
      KeySumOverSuffix(m, qs, n + 1, d);
      assert qs[n..][1..] == qs[n + 1..];
      assert qs[n..][0] == qs[n];
      KeyIndexInvertsKeys();
      assert KeyIndex(KEYS[n / 2]) == n / 2;
      assert n / 2 == d <==> n == 2 * d || n == 2 * d + 1;
    }
  }

  /**
   * With every question answered, dimension d (0-based) scores exactly the
   * answers to questions 2d+1 and 2d+2; with answers in 1..5 every score
   * therefore lies in 2..10.
   */
  lemma FullAnswerScores(m: map<int, int>)
    requires AnswersEveryQuestion(m)
    ensures forall d | 0 <= d < KEY_COUNT :: Scores(m)[d] == m[2 * d + 1] + m[2 * d + 2]
    ensures (forall id | 1 <= id <= QUESTION_COUNT :: 1 <= m[id] <= 5) ==>
      forall d | 0 <= d < KEY_COUNT :: 2 <= Scores(m)[d] <= 10
  {
    QuestionIdsAreSequential();
    TwoQuestionsPerDimension();
    assert PairedLayout(QUESTIONS);
    forall d | 0 <= d < KEY_COUNT ensures Scores(m)[d] == m[2 * d + 1] + m[2 * d + 2] {
      KeySumOverSuffix(m, QUESTIONS, 0, d);
      assert QUESTIONS[0..] == QUESTIONS;
    }
  }

  // ---------------------------------------------------------------------
  // determineAnimal
  // ---------------------------------------------------------------------

  /** The sum of squared differences over the first `n` dimensions. */
  function SquaredDistanceUpTo(p: Profile, q: Profile, n: nat): int
    requires n <= KEY_COUNT
  {
    if n == 0 then 0
    else SquaredDistanceUpTo(p, q, n - 1) + (p[n - 1] - q[n - 1]) * (p[n - 1] - q[n - 1])
  }

  /** The squared Euclidean distance between two profiles. */
  function SquaredDistance(p: Profile, q: Profile): int
  {
    SquaredDistanceUpTo(p, q, KEY_COUNT)
  }

  lemma SquareIsPositive(t: int)
    requires t != 0
    ensures t * t > 0
  {
    if t < 0 {
      assert t * t == (-t) * (-t);
    }
  }

  lemma {:induction false} SquaredDistanceUpToIsZeroExactlyOnAgreement(p: Profile, q: Profile, n: nat)
    requires n <= KEY_COUNT
    ensures SquaredDistanceUpTo(p, q, n) >= 0
    ensures SquaredDistanceUpTo(p, q, n) == 0 <==> forall d | 0 <= d < n :: p[d] == q[d]
  {
    if n > 0 {
      SquaredDistanceUpToIsZeroExactlyOnAgreement(p, q, n - 1);
      var t := p[n - 1] - q[n - 1];
      if t != 0 {
        SquareIsPositive(t);
      }
    }
  }

  /** The distance is never negative, and it is 0 exactly between equal profiles. */
  lemma SquaredDistanceIsZeroExactlyOnEqualProfiles(p: Profile, q: Profile)
    ensures SquaredDistance(p, q) >= 0
    ensures SquaredDistance(p, q) == 0 <==> p == q
  {
    SquaredDistanceUpToIsZeroExactlyOnAgreement(p, q, KEY_COUNT);
    if forall d | 0 <= d < KEY_COUNT :: p[d] == q[d] {
      assert p == q;
    }
  }

  /** The distance from `p` to each animal's ideal profile, in catalog order. */
  function Distances(p: Profile, animals: seq<AnimalType>): (ds: seq<int>)
    ensures |ds| == |animals|
    ensures forall i | 0 <= i < |animals| :: ds[i] == SquaredDistance(p, animals[i].idealProfile)
  {
    seq(|animals|, i requires 0 <= i < |animals| => SquaredDistance(p, animals[i].idealProfile))
  }

  /** `i` holds the smallest value of `ds`, and no earlier position holds that value. */
  predicate IsFirstMinimum(ds: seq<int>, i: int)
  {
    0 <= i < |ds|
    && (forall j | 0 <= j < |ds| :: ds[i] <= ds[j])
    && (forall j | 0 <= j < i :: ds[i] < ds[j])
  }

  /** The position of the first minimum of a non-empty sequence. */
  function FirstMinimum(ds: seq<int>): (i: nat)
    requires |ds| > 0
    ensures IsFirstMinimum(ds, i)
  {
    if |ds| == 1 then 0
    else
      var j := FirstMinimum(ds[..|ds| - 1]);
      if ds[|ds| - 1] < ds[j] then |ds| - 1 else j
  }

  /** A sequence has at most one first minimum. */
  lemma FirstMinimumIsUnique(ds: seq<int>, i: int, j: int)
    requires IsFirstMinimum(ds, i) && IsFirstMinimum(ds, j)
    ensures i == j
  {
    assert ds[i] <= ds[j] && ds[j] <= ds[i];
  }

  /**
   * `determineAnimal`: the first catalog animal whose ideal profile is
   * nearest to the user's profile.
   */
  method DetermineAnimal(userProfile: Profile) returns (closestAnimal: AnimalType)
    ensures closestAnimal == ANIMAL_TYPES[FirstMinimum(Distances(userProfile, ANIMAL_TYPES))]
  {
    var index := DetermineAnimalIndex(userProfile, ANIMAL_TYPES);
    closestAnimal := ANIMAL_TYPES[index];
  }

  /** `minDistance`, which starts at `Infinity`. */
  datatype Bound = Finite(value: int) | Infinity

  /** `distance < minDistance`. */
  predicate Below(distance: int, minDistance: Bound)
  {
    minDistance.Infinity? || distance < minDistance.value
  }

  /**
   * The loops of `determineAnimal` over the animal list `animals`: the
   * outer one keeps the nearest animal so far and replaces it only on a
   * strictly smaller distance; the inner one sums the squared differences
   * dimension by dimension.
   */
  method DetermineAnimalIndex(userProfile: Profile, animals: seq<AnimalType>) returns (closest: nat)
    requires |animals| > 0
    ensures closest == FirstMinimum(Distances(userProfile, animals))
    ensures closest < |animals|
    ensures forall j | 0 <= j < |animals| ::
      SquaredDistance(userProfile, animals[closest].idealProfile) <= SquaredDistance(userProfile, animals[j].idealProfile)
  {
    ghost var ds := Distances(userProfile, animals);
    closest := 0;
    var minDistance := Infinity;
    var a := 0;
    while a < |animals|
      invariant 0 <= a <= |animals|
      invariant a == 0 ==> minDistance == Infinity && closest == 0
      invariant a > 0 ==> IsFirstMinimum(ds[..a], closest) && minDistance == Finite(ds[closest])
    {
      var ideal := animals[a].idealProfile;
      var distance := 0;
      var k := 0;
      while k < KEY_COUNT
        invariant 0 <= k <= KEY_COUNT
        invariant distance == SquaredDistanceUpTo(userProfile, ideal, k)
      {
        var userVal := userProfile[k];
        var idealVal := ideal[k];
        distance := distance + (userVal - idealVal) * (userVal - idealVal);
        k := k + 1;
      }
      if Below(distance, minDistance) {
        minDistance := Finite(distance);
        closest := a;
      }
      a := a + 1;
    }
    assert ds[..a] == ds;
    FirstMinimumIsUnique(ds, closest, FirstMinimum(ds));
  }

  /** A user whose profile equals an animal's ideal profile is given that animal. */
  lemma ExactIdealIsChosen(p: Profile, i: nat)
    requires i < |ANIMAL_TYPES| && p == ANIMAL_TYPES[i].idealProfile
    ensures FirstMinimum(Distances(p, ANIMAL_TYPES)) == i
  {
    var ds := Distances(p, ANIMAL_TYPES);
    IdealProfilesAreDistinct();
    SquaredDistanceIsZeroExactlyOnEqualProfiles(p, p);
    forall j | 0 <= j < |ds| ensures ds[i] <= ds[j] && (j != i ==> ds[i] < ds[j]) {
      SquaredDistanceIsZeroExactlyOnEqualProfiles(p, ANIMAL_TYPES[j].idealProfile);
    }
    FirstMinimumIsUnique(ds, i, FirstMinimum(ds));
  }

  // ---------------------------------------------------------------------
  // generateAIComment
  // ---------------------------------------------------------------------

  /** `i` holds the largest value of `s`, and no earlier position holds that value. */
  predicate IsFirstMaximum(s: seq<int>, i: int)
  {
    0 <= i < |s|
    && (forall j | 0 <= j < |s| :: s[j] <= s[i])
    && (forall j | 0 <= j < i :: s[j] < s[i])
  }

  /** The position of the first maximum of a non-empty sequence. */
  function FirstMaximum(s: seq<int>): (i: nat)
    requires |s| > 0
    ensures IsFirstMaximum(s, i)
  {
    if |s| == 1 then 0
    else
      var j := FirstMaximum(s[..|s| - 1]);
      if s[|s| - 1] > s[j] then |s| - 1 else j
  }

  /** A sequence has at most one first maximum. */
  lemma FirstMaximumIsUnique(s: seq<int>, i: int, j: int)
    requires IsFirstMaximum(s, i) && IsFirstMaximum(s, j)
    ensures i == j
  {
    assert s[i] <= s[j] && s[j] <= s[i];
  }

  /**
   * The dimension the comment praises: the first dimension holding the
   * highest score, or `Respect` when no score exceeds -1.
   */
  function DominantKey(p: Profile): ParameterKey
  {
    var d := FirstMaximum(p);
    if p[d] > -1 then KEYS[d] else Respect
  }

  /**
   * When some score exceeds -1 the praised dimension holds the highest score
   * and every earlier dimension scores strictly less; otherwise it is
   * `Respect`.
   */
  lemma DominantKeyIsFirstHighest(p: Profile)
    ensures (forall d | 0 <= d < KEY_COUNT :: p[d] <= -1) ==> DominantKey(p) == Respect
    ensures (forall d | 0 <= d < KEY_COUNT :: p[d] <= -1) || IsFirstMaximum(p, KeyIndex(DominantKey(p)))
  {
    KeyIndexInvertsKeys();
  }

  /**
   * `generateAIComment`: scans the dimensions in key order from `maxVal = -1`
   * and `maxKey = Respect`, taking a dimension only when it is strictly
   * higher; the animal does not influence the comment.
   */
  method GenerateAIComment(userProfile: Profile, animal: AnimalType) returns (comment: string)
    ensures comment == CommentFor(DominantKey(userProfile))
  {
    var maxVal := -1;
    var maxKey := Respect;
    ghost var best := 0;
    var k := 0;
    while k < KEY_COUNT
      invariant 0 <= k <= KEY_COUNT && 0 <= best < KEY_COUNT
      invariant maxVal == -1 ==> maxKey == Respect && forall d | 0 <= d < k :: userProfile[d] <= -1
      invariant maxVal != -1 ==>
        maxVal > -1 && maxKey == KEYS[best] && maxVal == userProfile[best]
        && IsFirstMaximum(userProfile[..k], best)
    {
      FirstMaximumStep(userProfile, k, best);
      if userProfile[k] > maxVal {
        if maxVal == -1 {
          FirstMaximumAfterLowPrefix(userProfile, k);
        }
        maxVal := userProfile[k];
        maxKey := KEYS[k];
        best := k;
      }
      k := k + 1;
    }
    assert userProfile[..k] == userProfile;
    if maxVal != -1 {
      FirstMaximumIsUnique(userProfile, best, FirstMaximum(userProfile));
    }
    comment := COMMENT_OPENING + ParamLabel(maxKey) + COMMENT_BRIDGE + Affirmation(maxKey);
  }

  /** Extending a scanned prefix by one position keeps or replaces its first maximum. */
  lemma FirstMaximumStep(s: seq<int>, k: nat, best: nat)
    requires k < |s|
    ensures IsFirstMaximum(s[..k], best) && s[k] > s[best] ==> IsFirstMaximum(s[..k + 1], k)
    ensures IsFirstMaximum(s[..k], best) && s[k] <= s[best] ==> IsFirstMaximum(s[..k + 1], best)
  {
  }

  /** After a prefix scoring at most -1, a higher score is the first maximum so far. */
  lemma FirstMaximumAfterLowPrefix(s: seq<int>, k: nat)
    requires k < |s| && s[k] > -1
    requires forall d | 0 <= d < k :: s[d] <= -1
    ensures IsFirstMaximum(s[..k + 1], k)
  {
  }

  // ---------------------------------------------------------------------
  // The scorer as shipped
  // ---------------------------------------------------------------------

  /** A JavaScript number as the shipped pipeline can produce it. */
  datatype JsNumber = Num(n: int) | NaN

  /**
   * The record the shipped scorer returns: the nine dimensions, plus the
   * entry under the key "undefined" (None while absent). The shipped
   * question objects carry no `parameterKey`, so `scores[question.parameterKey]`
   * names that entry.
   */
  datatype RawScores = RawScores(nine: Profile, undefinedEntry: Option<JsNumber>)

  /** `entry += v` where the entry may be absent: `undefined + v` is NaN, and NaN absorbs every addition. */
  function JsAddInto(entry: Option<JsNumber>, v: int): JsNumber
  {
    match entry
    case None => NaN
    case Some(NaN) => NaN
    case Some(Num(n)) => Num(n + v)
  }

  /**
   * The shipped scorer over catalog `qs`: each answer to a question of the
   * catalog is added to the "undefined" entry, and the nine dimensions keep
   * their initial 0.
   */
  function ScoresAsWritten(answers: map<int, int>, qs: seq<Question>): RawScores
  {
    if qs == [] then RawScores(ZERO_SCORES, None)
    else
      var r := ScoresAsWritten(answers, qs[1..]);
      if qs[0].id in answers
      then r.(undefinedEntry := Some(JsAddInto(r.undefinedEntry, answers[qs[0].id])))
      else r
  }

  /**
   * As shipped, the nine scores stay 0 whatever the answers; the
   * "undefined" entry appears, holding NaN, as soon as one catalog question
   * is answered.
   */
  lemma {:induction false} ScoresAsWrittenStayZero(answers: map<int, int>, qs: seq<Question>)
    ensures ScoresAsWritten(answers, qs).nine == ZERO_SCORES
    ensures ScoresAsWritten(answers, qs).undefinedEntry.None?
        <==> forall i | 0 <= i < |qs| :: qs[i].id !in answers
    ensures ScoresAsWritten(answers, qs).undefinedEntry.Some? ==> ScoresAsWritten(answers, qs).undefinedEntry == Some(NaN)
  {
    if qs != [] {
      ScoresAsWrittenStayZero(answers, qs[1..]);
      assert forall i | 1 <= i < |qs| :: qs[i] == qs[1..][i - 1];
    }
  }

  /**
   * `distance` as the shipped `determineAnimal` computes it: once the record
   * has the "undefined" entry, the term for that key is the entry's NaN
   * minus the ideal profile's missing value (`undefined`), which is NaN,
   * and the whole sum becomes NaN.
   */
  function DistanceAsWritten(raw: RawScores, ideal: Profile): JsNumber
  {
    if raw.undefinedEntry.Some? then NaN else Num(SquaredDistance(raw.nine, ideal))
  }

  /** `distance < minDistance` on JavaScript numbers: every comparison with NaN is false. */
  predicate JsBelow(distance: JsNumber, minDistance: Bound)
  {
    distance.Num? && Below(distance.n, minDistance)
  }

  /** The shipped `determineAnimal` loop over the first `n` animals: (chosen index, `minDistance`). */
  function NearestAsWrittenUpTo(raw: RawScores, n: nat): (r: (nat, Bound))
    requires n <= |ANIMAL_TYPES|
    ensures r.0 < n || r.0 == 0
  {
    if n == 0 then (0, Infinity)
    else
      var (i, minDistance) := NearestAsWrittenUpTo(raw, n - 1);
      var distance := DistanceAsWritten(raw, ANIMAL_TYPES[n - 1].idealProfile);
      if JsBelow(distance, minDistance) then (n - 1, Finite(distance.n)) else (i, minDistance)
  }

  /** With the "undefined" entry present, no distance is ever below `minDistance`, so the first animal is kept. */
  lemma {:induction false} NearestAsWrittenKeepsFirst(raw: RawScores, n: nat)
    requires n <= |ANIMAL_TYPES| && raw.undefinedEntry.Some?
    ensures NearestAsWrittenUpTo(raw, n) == (0, Infinity)
  {
    if n > 0 {
      NearestAsWrittenKeepsFirst(raw, n - 1);
    }
  }

  /** Every catalog question answered 5. */
  const ALL_FIVES: map<int, int> := map id | 1 <= id <= QUESTION_COUNT :: 5

  /** The intended scores for `ALL_FIVES`: 10 in every dimension. */
  lemma AllFivesScoreTen()
    ensures Scores(ALL_FIVES) == [10, 10, 10, 10, 10, 10, 10, 10, 10]
  {
    FullAnswerScores(ALL_FIVES);
  }

  /** The shipped scores for `ALL_FIVES`: nine zeros and a NaN entry under "undefined". */
  lemma AllFivesScoreZeroAsWritten()
    ensures ScoresAsWritten(ALL_FIVES, QUESTIONS) == RawScores(ZERO_SCORES, Some(NaN))
  {
    QuestionIdsAreSequential();
    ScoresAsWrittenStayZero(ALL_FIVES, QUESTIONS);
    assert QUESTIONS[0].id in ALL_FIVES;
  }

  /** Whenever the "undefined" entry exists, the shipped matcher returns the lion. */
  lemma AsWrittenMatcherPicksLion(raw: RawScores)
    requires raw.undefinedEntry.Some?
    ensures ANIMAL_TYPES[NearestAsWrittenUpTo(raw, |ANIMAL_TYPES|).0].id == "lion"
  {
    NearestAsWrittenKeepsFirst(raw, |ANIMAL_TYPES|);
    AnimalIdsAreDistinct();
  }

  /** With nine zero scores the comment praises `Respect`, the first dimension. */
  lemma ZeroScoresPraiseRespect()
    ensures DominantKey(ZERO_SCORES) == Respect
  {
    assert IsFirstMaximum(ZERO_SCORES, 0);
    FirstMaximumIsUnique(ZERO_SCORES, 0, FirstMaximum(ZERO_SCORES));
  }

  /**
   * The discrepancy on one input: with every question answered 5 the
   * intended scores are all 10, while the shipped scorer leaves all nine at
   * 0 and adds a NaN entry; the shipped matcher then picks the lion, and the
   * comment praises `Respect`.
   */
  lemma AllFivesAsWritten()
    ensures Scores(ALL_FIVES) == [10, 10, 10, 10, 10, 10, 10, 10, 10]
    ensures ScoresAsWritten(ALL_FIVES, QUESTIONS) == RawScores(ZERO_SCORES, Some(NaN))
    ensures ANIMAL_TYPES[NearestAsWrittenUpTo(ScoresAsWritten(ALL_FIVES, QUESTIONS), |ANIMAL_TYPES|).0].id == "lion"
    ensures DominantKey(ScoresAsWritten(ALL_FIVES, QUESTIONS).nine) == Respect
  {
    AllFivesScoreTen();
    AllFivesScoreZeroAsWritten();
    AsWrittenMatcherPicksLion(RawScores(ZERO_SCORES, Some(NaN)));
    ZeroScoresPraiseRespect();
  }
}
