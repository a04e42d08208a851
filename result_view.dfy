/**
 * The result screen: the diagnosis it computes from the answers, the
 * ranking behind "top three strengths", and the two-line heading built
 * from the animal's catchphrase.
 */
module ResultView {
  import opened Wrappers
  import opened Questions
  import opened Animals
  import opened Diagnosis
  import opened JsString

  /** The values the result screen derives from the answers once. */
  method ComputeResult(answers: map<int, int>) returns (animal: AnimalType, scores: Profile, comment: string)
    ensures scores == Scores(answers)
    ensures animal == ANIMAL_TYPES[FirstMinimum(Distances(scores, ANIMAL_TYPES))]
    ensures comment == CommentFor(DominantKey(scores))
  {
    scores := CalculateScores(answers);
    animal := DetermineAnimal(scores);
    comment := GenerateAIComment(scores, animal);
  }

  // ---------------------------------------------------------------------
  // Top strengths
  // ---------------------------------------------------------------------

  /**
   * Dimension `a` is listed before dimension `b`: it scores higher, or the
   * scores tie and `a` comes first in key order (the sort is stable).
   */
  predicate RanksBefore(p: Profile, a: int, b: int)
  {
    0 <= a < KEY_COUNT && 0 <= b < KEY_COUNT && (p[a] > p[b] || (p[a] == p[b] && a < b))
  }

  /** Every dimension in `s` is listed before every later one. */
  predicate Ranked(p: Profile, s: seq<nat>)
  {
    forall i, j | 0 <= i < j < |s| :: RanksBefore(p, s[i], s[j])
  }

  predicate AllPositions(s: seq<nat>)
  {
    forall i | 0 <= i < |s| :: s[i] < KEY_COUNT
  }

  /** Places dimension `x` after every dimension of `ys` that scores strictly higher. */
  function Insert(p: Profile, x: nat, ys: seq<nat>): (r: seq<nat>)
    ensures |r| == |ys| + 1
  {
    if ys == [] || ys[0] >= KEY_COUNT || x >= KEY_COUNT || p[x] >= p[ys[0]] then [x] + ys
    else [ys[0]] + Insert(p, x, ys[1..])
  }

  /** A stable sort of the dimensions `ds` by descending score. */
  function Rank(p: Profile, ds: seq<nat>): (r: seq<nat>)
    ensures |r| == |ds|
  {
    if ds == [] then [] else Insert(p, ds[0], Rank(p, ds[1..]))
  }

  /** The nine dimension positions in key order (the order of `Object.entries`). */
  function KeyPositions(): (s: seq<nat>)
    ensures |s| == KEY_COUNT && forall i | 0 <= i < KEY_COUNT :: s[i] == i
  {
    seq(KEY_COUNT, i requires 0 <= i => i)
  }

  /** The dimensions of `p`, best first. */
  function Ranking(p: Profile): (r: seq<nat>)
    ensures |r| == KEY_COUNT
  {
    Rank(p, KeyPositions())
  }

  /**
   * `topStrengths`: the labels of the first three ranked dimensions. They
   * are three different labels, in non-increasing score order with ties in
   * key order, and every dimension whose label is left out ranks after the
   * third.
   */
  function TopStrengths(p: Profile): (labels: seq<string>)
    ensures |labels| == 3
    ensures forall i | 0 <= i < 3 :: Ranking(p)[i] < KEY_COUNT && labels[i] == ParamLabel(KEYS[Ranking(p)[i]])
    ensures labels[0] != labels[1] && labels[0] != labels[2] && labels[1] != labels[2]
    ensures RanksBefore(p, Ranking(p)[0], Ranking(p)[1]) && RanksBefore(p, Ranking(p)[1], Ranking(p)[2])
    ensures forall d | 0 <= d < KEY_COUNT && ParamLabel(KEYS[d]) !in labels :: RanksBefore(p, Ranking(p)[2], d)
  {
    RankingLeadsWithTheHighest(p);
    LabelsAreDistinct();
    KeysEnumerateParameterKey();
    var r := Ranking(p);
    [ParamLabel(KEYS[r[0]]), ParamLabel(KEYS[r[1]]), ParamLabel(KEYS[r[2]])]
  }

  lemma {:induction false} InsertPermutes(p: Profile, x: nat, ys: seq<nat>)
    ensures multiset(Insert(p, x, ys)) == multiset(ys) + multiset{x}
  {
    if !(ys == [] || ys[0] >= KEY_COUNT || x >= KEY_COUNT || p[x] >= p[ys[0]]) {
      InsertPermutes(p, x, ys[1..]);
      assert ys == [ys[0]] + ys[1..];
    }
  }

  lemma {:induction false} InsertKeepsRanked(p: Profile, x: nat, ys: seq<nat>)
    requires x < KEY_COUNT && AllPositions(ys) && Ranked(p, ys)
    requires forall i | 0 <= i < |ys| :: x < ys[i]
    ensures AllPositions(Insert(p, x, ys)) && Ranked(p, Insert(p, x, ys))
  {
    if ys == [] || p[x] >= p[ys[0]] {
      forall j | 0 <= j < |ys| ensures RanksBefore(p, x, ys[j]) {
        if j > 0 {
          assert RanksBefore(p, ys[0], ys[j]);
        }
      }
    } else {
      var rest := Insert(p, x, ys[1..]);
      InsertKeepsRanked(p, x, ys[1..]);
      InsertPermutes(p, x, ys[1..]);
      forall j | 0 <= j < |rest| ensures RanksBefore(p, ys[0], rest[j]) {
        assert rest[j] in multiset(rest);
        if rest[j] != x {
          assert rest[j] in multiset(ys[1..]);
          assert rest[j] in ys[1..];
          var k :| 0 <= k < |ys[1..]| && ys[1..][k] == rest[j];
          assert RanksBefore(p, ys[0], ys[k + 1]);
        }
      }
      assert Insert(p, x, ys) == [ys[0]] + rest;
    }
  }

  /** In a strictly increasing sequence the head is below every element of any rearrangement of the tail. */
  lemma HeadBelowRearrangedTail(ds: seq<nat>, rest: seq<nat>)
    requires |ds| > 0 && multiset(rest) == multiset(ds[1..])
    requires forall i, j | 0 <= i < j < |ds| :: ds[i] < ds[j]
    ensures forall i | 0 <= i < |rest| :: ds[0] < rest[i]
  {
    forall i | 0 <= i < |rest| ensures ds[0] < rest[i] {
      assert rest[i] in multiset(ds[1..]);
      var k :| 0 <= k < |ds[1..]| && ds[1..][k] == rest[i];
      assert ds[k + 1] == rest[i];
    }
  }

  lemma {:induction false} RankIsOrderedPermutation(p: Profile, ds: seq<nat>)
    requires AllPositions(ds)
    requires forall i, j | 0 <= i < j < |ds| :: ds[i] < ds[j]
    ensures multiset(Rank(p, ds)) == multiset(ds)
    ensures AllPositions(Rank(p, ds)) && Ranked(p, Rank(p, ds))
  {
    if ds != [] {
      RankIsOrderedPermutation(p, ds[1..]);
      var rest := Rank(p, ds[1..]);
      HeadBelowRearrangedTail(ds, rest);
      InsertPermutes(p, ds[0], rest);
      InsertKeepsRanked(p, ds[0], rest);
      assert ds == [ds[0]] + ds[1..];
    }
  }

  /**
   * The ranking lists each of the nine dimensions exactly once, higher
   * scores first and ties in key order.
   */
  lemma RankingIsOrderedPermutation(p: Profile)
    ensures multiset(Ranking(p)) == multiset(KeyPositions())
    ensures |Ranking(p)| == KEY_COUNT
    ensures AllPositions(Ranking(p)) && Ranked(p, Ranking(p))
  {
    RankIsOrderedPermutation(p, KeyPositions());
    assert |multiset(Ranking(p))| == |multiset(KeyPositions())|;
  }

  /** Every dimension appears somewhere in the ranking. */
  lemma RankingCoversEveryDimension(p: Profile, d: nat)
    requires d < KEY_COUNT
    ensures d in Ranking(p)
  {
    RankingIsOrderedPermutation(p);
    assert KeyPositions()[d] == d;
    assert d in multiset(KeyPositions());
  }

  /**
   * The first three ranked dimensions are three different ones, in
   * non-increasing score order with ties in key order, and every other
   * dimension ranks after the third.
   */
  lemma RankingLeadsWithTheHighest(p: Profile)
    ensures |Ranking(p)| == KEY_COUNT && AllPositions(Ranking(p))
    ensures Ranking(p)[0] != Ranking(p)[1] && Ranking(p)[0] != Ranking(p)[2] && Ranking(p)[1] != Ranking(p)[2]
    ensures RanksBefore(p, Ranking(p)[0], Ranking(p)[1]) && RanksBefore(p, Ranking(p)[1], Ranking(p)[2])
    ensures forall d | 0 <= d < KEY_COUNT && d !in Ranking(p)[..3] :: RanksBefore(p, Ranking(p)[2], d)
  {
    var r := Ranking(p);
    RankingIsOrderedPermutation(p);
    assert RanksBefore(p, r[0], r[1]) && RanksBefore(p, r[0], r[2]) && RanksBefore(p, r[1], r[2]);
    forall d | 0 <= d < KEY_COUNT && d !in r[..3] ensures RanksBefore(p, r[2], d) {
      RankingCoversEveryDimension(p, d);
      var k :| 0 <= k < |r| && r[k] == d;
      assert RanksBefore(p, r[2], r[k]);
    }
  }

  /**
   * When some score exceeds -1, the first strength is the dimension the
   * comment praises.
   */
  lemma TopStrengthMatchesComment(p: Profile)
    requires exists d | 0 <= d < KEY_COUNT :: p[d] > -1
    ensures TopStrengths(p)[0] == ParamLabel(DominantKey(p))
  {
    var r := Ranking(p);
    RankingIsOrderedPermutation(p);
    forall d | 0 <= d < KEY_COUNT ensures p[d] <= p[r[0]] && (d < r[0] ==> p[d] < p[r[0]]) {
      RankingCoversEveryDimension(p, d);
      var k :| 0 <= k < |r| && r[k] == d;
      if k > 0 {
        assert RanksBefore(p, r[0], r[k]);
      }
    }
    assert IsFirstMaximum(p, r[0]);
    DominantKeyIsFirstHighest(p);
    KeyIndexInvertsKeys();
    FirstMaximumIsUnique(p, r[0], KeyIndex(DominantKey(p)));
  }

  // ---------------------------------------------------------------------
  // The catchphrase heading
  // ---------------------------------------------------------------------

  /** The heading's first line: the text before the first `」`, without its first `「`, bracketed again. */
  function HeadingFirstLine(catchphrase: string): (line: string)
    ensures |line| >= 2 && line[0] == '「' && line[|line| - 1] == '」'
    ensures '」' !in line[..|line| - 1]
  {
    "「" + RemoveFirst(Split(catchphrase, '」')[0], '「') + "」"
  }

  /** The heading's second line: the text after the first `」` up to the next, or nothing when there is no `」`. */
  function HeadingSecondLine(catchphrase: string): (line: Option<string>)
    ensures line.None? <==> '」' !in catchphrase
    ensures line.Some? ==> '」' !in line.value
  {
    var parts := Split(catchphrase, '」');
    if |parts| > 1 then Some(parts[1]) else None
  }

  /**
   * A catchphrase of the form `「x」y`, with no `」` in x or y, is shown as
   * the line `「x」` followed by the line y: the heading shows the whole
   * catchphrase, split after the bracket.
   */
  lemma HeadingOfBracketedPhrase(x: string, y: string)
    requires '」' !in x && '」' !in y
    ensures HeadingFirstLine("「" + x + "」" + y) == "「" + x + "」"
    ensures HeadingSecondLine("「" + x + "」" + y) == Some(y)
  {
    var c := "「" + x + "」" + y;
    assert '」' !in "「" + x;
    assert c == ("「" + x) + ['」'] + y;
    SplitJoinRoundTrip(["「" + x, y], '」');
    assert Join(["「" + x, y], '」') == c;
    IndexOfAfterPiece([], '「', x);
    assert "「" + x == [] + ['「'] + x;
  }

  /** Every catalog catchphrase has the bracketed form, so its heading shows it whole. */
  lemma CatalogHeadingsShowWholeCatchphrase()
    ensures WholeHeading(LION.catchphrase) && WholeHeading(DOVE.catchphrase) && WholeHeading(EAGLE.catchphrase)
    ensures WholeHeading(DEER.catchphrase) && WholeHeading(BULL.catchphrase) && WholeHeading(ANT.catchphrase)
    ensures WholeHeading(SERPENT.catchphrase) && WholeHeading(LAMB.catchphrase) && WholeHeading(HORSE.catchphrase)
    ensures WholeHeading(CAMEL.catchphrase) && WholeHeading(DONKEY.catchphrase) && WholeHeading(FISH.catchphrase)
  {
    LionHeading();
    DoveHeading();
    EagleHeading();
    DeerHeading();
    BullHeading();
    AntHeading();
    SerpentHeading();
    LambHeading();
    HorseHeading();
    CamelHeading();
    DonkeyHeading();
    FishHeading();
  }

  lemma LionHeading()
    ensures WholeHeading(LION.catchphrase)
  {
    assert LION.catchphrase == "「" + "信念つらぬき" + "」" + "じょうずなライオン";
    BracketedHeading(LION.catchphrase, "信念つらぬき", "じょうずなライオン");
  }

  lemma DoveHeading()
    ensures WholeHeading(DOVE.catchphrase)
  {
    assert DOVE.catchphrase == "「" + "愛をとどけ" + "」" + "じょうずなハト";
    BracketedHeading(DOVE.catchphrase, "愛をとどけ", "じょうずなハト");
  }

  lemma EagleHeading()
    ensures WholeHeading(EAGLE.catchphrase)
  {
    assert EAGLE.catchphrase == "「" + "未来見通し" + "」" + "じょうずなワシ";
    BracketedHeading(EAGLE.catchphrase, "未来見通し", "じょうずなワシ");
  }

  lemma DeerHeading()
    ensures WholeHeading(DEER.catchphrase)
  {
    assert DEER.catchphrase == "「" + "バランス" + "」" + "じょうずなシカ";
    BracketedHeading(DEER.catchphrase, "バランス", "じょうずなシカ");
  }

  lemma BullHeading()
    ensures WholeHeading(BULL.catchphrase)
  {
    assert BULL.catchphrase == "「" + "現場をまもり" + "」" + "じょうずなオウシ";
    BracketedHeading(BULL.catchphrase, "現場をまもり", "じょうずなオウシ");
  }

  lemma AntHeading()
    ensures WholeHeading(ANT.catchphrase)
  {
    assert ANT.catchphrase == "「" + "コツコツ積み上げ" + "」" + "じょうずなアリ";
    BracketedHeading(ANT.catchphrase, "コツコツ積み上げ", "じょうずなアリ");
  }

  lemma SerpentHeading()
    ensures WholeHeading(SERPENT.catchphrase)
  {
    assert SERPENT.catchphrase == "「" + "知恵みがき" + "」" + "じょうずなヘビ";
    BracketedHeading(SERPENT.catchphrase, "知恵みがき", "じょうずなヘビ");
  }

  lemma LambHeading()
    ensures WholeHeading(LAMB.catchphrase)
  {
    assert LAMB.catchphrase == "「" + "愛され応援され" + "」" + "じょうずなコヒツジ";
    BracketedHeading(LAMB.catchphrase, "愛され応援され", "じょうずなコヒツジ");
  }

  lemma HorseHeading()
    ensures WholeHeading(HORSE.catchphrase)
  {
    assert HORSE.catchphrase == "「" + "目標駆け抜け" + "」" + "じょうずなウマ";
    BracketedHeading(HORSE.catchphrase, "目標駆け抜け", "じょうずなウマ");
  }

  lemma CamelHeading()
    ensures WholeHeading(CAMEL.catchphrase)
  {
    assert CAMEL.catchphrase == "「" + "忍耐づよく歩き" + "」" + "じょうずなラクダ";
    BracketedHeading(CAMEL.catchphrase, "忍耐づよく歩き", "じょうずなラクダ");
  }

  lemma DonkeyHeading()
    ensures WholeHeading(DONKEY.catchphrase)
  {
    assert DONKEY.catchphrase == "「" + "平和をはこび" + "」" + "じょうずなロバ";
    BracketedHeading(DONKEY.catchphrase, "平和をはこび", "じょうずなロバ");
  }

  lemma FishHeading()
    ensures WholeHeading(FISH.catchphrase)
  {
    assert FISH.catchphrase == "「" + "奇跡をおこし" + "」" + "じょうずなサカナ";
    BracketedHeading(FISH.catchphrase, "奇跡をおこし", "じょうずなサカナ");
  }

  /** The two heading lines of `c` together spell `c`. */
  predicate WholeHeading(c: string)
  {
    HeadingSecondLine(c).Some? && HeadingFirstLine(c) + HeadingSecondLine(c).value == c
  }

  lemma BracketedHeading(c: string, x: string, y: string)
    requires c == "「" + x + "」" + y && '」' !in x && '」' !in y
    ensures WholeHeading(c)
  {
    HeadingOfBracketedPhrase(x, y);
  }
}
