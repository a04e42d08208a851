/**
 * The catalog of twelve animal types. Each type has an integer ideal
 * profile over the nine dimensions; the diagnosis picks the type whose
 * ideal profile is nearest to the respondent's scores.
 */
module Animals {
  import opened Questions

  /**
   * An animal type. The long description, the legend's name and role are
   * display text and are not modelled.
   */
  datatype AnimalType = AnimalType(id: string, name: string, catchphrase: string, idealProfile: Profile)

  /** Builds a profile from named dimension values, in any order. */
  function Ideal(respect: int, warmth: int, responsibility: int, universalTruth: int,
                 divineGuidance: int, mission: int, heavenlyWork: int, thoroughness: int,
                 innovation: int): (p: Profile)
    ensures 4 <= respect <= 10 && 4 <= warmth <= 10 && 4 <= responsibility <= 10
         && 4 <= universalTruth <= 10 && 4 <= divineGuidance <= 10 && 4 <= mission <= 10
         && 4 <= heavenlyWork <= 10 && 4 <= thoroughness <= 10 && 4 <= innovation <= 10
         ==> InIdealRange(p)
  {
    [respect, warmth, responsibility, universalTruth, divineGuidance,
     mission, heavenlyWork, thoroughness, innovation]
  }

  const ANIMAL_COUNT: nat := 12

  const LION: AnimalType :=
    AnimalType("lion", "ライオン (Lion)", "「信念つらぬき」じょうずなライオン",
      Ideal(universalTruth := 10, responsibility := 9, mission := 9,
            respect := 5, warmth := 5, divineGuidance := 5, heavenlyWork := 5, thoroughness := 5, innovation := 5))

  const DOVE: AnimalType :=
    AnimalType("dove", "ハト (Dove)", "「愛をとどけ」じょうずなハト",
      Ideal(warmth := 10, respect := 9, heavenlyWork := 8,
            universalTruth := 5, responsibility := 5, divineGuidance := 5, mission := 5, thoroughness := 5, innovation := 5))

  const EAGLE: AnimalType :=
    AnimalType("eagle", "ワシ (Eagle)", "「未来見通し」じょうずなワシ",
      Ideal(mission := 10, innovation := 9, divineGuidance := 8,
            respect := 5, warmth := 5, responsibility := 5, universalTruth := 5, heavenlyWork := 5, thoroughness := 5))

  const DEER: AnimalType :=
    AnimalType("deer", "シカ (Deer)", "「バランス」じょうずなシカ",
      Ideal(thoroughness := 9, universalTruth := 8, respect := 8,
            warmth := 5, responsibility := 6, divineGuidance := 5, mission := 6, heavenlyWork := 6, innovation := 5))

  const BULL: AnimalType :=
    AnimalType("bull", "オウシ (Bull)", "「現場をまもり」じょうずなオウシ",
      Ideal(responsibility := 10, thoroughness := 8, warmth := 7,
            respect := 5, universalTruth := 5, divineGuidance := 5, mission := 5, heavenlyWork := 6, innovation := 5))

  const ANT: AnimalType :=
    AnimalType("ant", "アリ (Ant)", "「コツコツ積み上げ」じょうずなアリ",
      Ideal(thoroughness := 10, heavenlyWork := 9, responsibility := 8,
            respect := 5, warmth := 5, universalTruth := 5, divineGuidance := 5, mission := 5, innovation := 4))

  const SERPENT: AnimalType :=
    AnimalType("serpent", "ヘビ (Serpent)", "「知恵みがき」じょうずなヘビ",
      Ideal(innovation := 9, thoroughness := 9, universalTruth := 7,
            respect := 5, warmth := 4, responsibility := 6, divineGuidance := 6, mission := 6, heavenlyWork := 5))

  const LAMB: AnimalType :=
    AnimalType("lamb", "コヒツジ (Lamb)", "「愛され応援され」じょうずなコヒツジ",
      Ideal(warmth := 9, heavenlyWork := 10, innovation := 8,
            respect := 7, responsibility := 5, universalTruth := 6, divineGuidance := 6, mission := 6, thoroughness := 4))

  const HORSE: AnimalType :=
    AnimalType("horse", "ウマ (Horse)", "「目標駆け抜け」じょうずなウマ",
      Ideal(responsibility := 9, mission := 8, innovation := 9,
            respect := 5, warmth := 5, universalTruth := 5, divineGuidance := 5, heavenlyWork := 5, thoroughness := 5))

  const CAMEL: AnimalType :=
    AnimalType("camel", "ラクダ (Camel)", "「忍耐づよく歩き」じょうずなラクダ",
      Ideal(responsibility := 10, thoroughness := 10, heavenlyWork := 8,
            respect := 5, warmth := 4, universalTruth := 5, divineGuidance := 4, mission := 5, innovation := 4))

  const DONKEY: AnimalType :=
    AnimalType("donkey", "ロバ (Donkey)", "「平和をはこび」じょうずなロバ",
      Ideal(warmth := 9, heavenlyWork := 9, respect := 8,
            responsibility := 8, universalTruth := 5, divineGuidance := 5, mission := 5, thoroughness := 6, innovation := 4))

  const FISH: AnimalType :=
    AnimalType("fish", "サカナ (Fish)", "「奇跡をおこし」じょうずなサカナ",
      Ideal(divineGuidance := 10, innovation := 9, mission := 8,
            respect := 7, warmth := 7, responsibility := 5, universalTruth := 5, heavenlyWork := 5, thoroughness := 4))

  /** The catalog in source order; the first entry is the diagnosis default. */
  const ANIMAL_TYPES: seq<AnimalType> :=
    [LION, DOVE, EAGLE, DEER, BULL, ANT, SERPENT, LAMB, HORSE, CAMEL, DONKEY, FISH]

  /** The twelve ids are distinct, and the first entry (the diagnosis default) is the lion. */
  lemma AnimalIdsAreDistinct()
    ensures |ANIMAL_TYPES| == ANIMAL_COUNT
    ensures ANIMAL_TYPES[0].id == "lion"
    ensures forall i, j | 0 <= i < j < |ANIMAL_TYPES| :: ANIMAL_TYPES[i].id != ANIMAL_TYPES[j].id
  {
  }

  /** Every value of `p` lies between 4 and 10. */
  predicate InIdealRange(p: Profile)
  {
    forall d | 0 <= d < KEY_COUNT :: 4 <= p[d] <= 10
  }

  /** Every ideal value lies between 4 and 10. */
  lemma IdealValuesInRange()
    ensures forall i, d | 0 <= i < |ANIMAL_TYPES| && 0 <= d < KEY_COUNT ::
      4 <= ANIMAL_TYPES[i].idealProfile[d] <= 10
  {
  }

  /** No two animal types share an ideal profile. */
  lemma IdealProfilesAreDistinct()
    ensures forall i, j | 0 <= i < j < |ANIMAL_TYPES| ::
      ANIMAL_TYPES[i].idealProfile != ANIMAL_TYPES[j].idealProfile
  {
  }

  /** The image basenames that the decorative background shows (FloatingIcons). */
  const ICON_NAMES: set<string> :=
    {"ant", "bull", "camel", "deer", "donkey", "dove", "eagle", "fish",
     "horse", "lamb", "lion", "serpent"}

  /** Every catalog id has an icon and every icon names a catalog animal. */
  lemma IdsMatchIconNames()
    ensures forall i | 0 <= i < |ANIMAL_TYPES| :: ANIMAL_TYPES[i].id in ICON_NAMES
    ensures forall n | n in ICON_NAMES :: exists i | 0 <= i < |ANIMAL_TYPES| :: ANIMAL_TYPES[i].id == n
  {
    forall n | n in ICON_NAMES ensures exists i | 0 <= i < |ANIMAL_TYPES| :: ANIMAL_TYPES[i].id == n {
      if n == "lion" {
        assert ANIMAL_TYPES[0].id == n;
      } else if n == "dove" {
        assert ANIMAL_TYPES[1].id == n;
      } else if n == "eagle" {
        assert ANIMAL_TYPES[2].id == n;
      } else if n == "deer" {
        assert ANIMAL_TYPES[3].id == n;
      } else if n == "bull" {
        assert ANIMAL_TYPES[4].id == n;
      } else if n == "ant" {
        assert ANIMAL_TYPES[5].id == n;
      } else if n == "serpent" {
        assert ANIMAL_TYPES[6].id == n;
      } else if n == "lamb" {
        assert ANIMAL_TYPES[7].id == n;
      } else if n == "horse" {
        assert ANIMAL_TYPES[8].id == n;
      } else if n == "camel" {
        assert ANIMAL_TYPES[9].id == n;
      } else if n == "donkey" {
        assert ANIMAL_TYPES[10].id == n;
      } else if n == "fish" {
        assert ANIMAL_TYPES[11].id == n;
      }
    }
  }
}
