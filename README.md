# じょうずかん — a verified model of the diagnosis app

じょうずかん is a small personality-diagnosis web app. The reader:

1. enters a name and an e-mail address;
2. answers 18 statements on a five-point scale;
3. is meant to see the animal whose ideal nine-dimension profile lies nearest to their own, a short comment on their strongest dimension, and their three strongest dimensions (as written, every quiz gives the lion; see Findings).

The app also has a header with a scroll-away rule and a menu, a page shell that switches between views, and a questions-and-answers page.

This project models that behaviour in Dafny and proves what the code promises:

- **Scoring** (`Diagnosis`). Each answer is added to its question's dimension, whatever the order the answers come in. Unknown question ids are ignored. The nine scores add up to the sum of the known answers. With every question answered, each score is the sum of the dimension's two questions.
- **Matching** (`Diagnosis`). The chosen animal is the first one, in catalog order, whose squared distance to the profile is smallest. An animal's own ideal profile always picks that animal.
- **Comment** (`Diagnosis`). The comment names the first dimension holding the highest score. It falls back to Respect when no score exceeds -1.
- **Result page** (`ResultView`):
  - the three strengths are three distinct dimensions, ranked by a stable descending sort, and their first one is the comment's dimension;
  - every catalog catchphrase of the form 「X」Y splits into the heading lines 「X」 and Y.
- **Quiz** (`Quiz`):
  - each answer is stored under the current question's id;
  - answering all 18 questions in order finishes exactly once, with exactly the 18 ids;
  - only the active card reacts to a click;
  - the tilt of an answered card mirrors around the neutral answer.
- **Start form** (`StartForm`):
  - the address check accepts exactly the strings of the pattern `^[^\s@]+@[^\s@]+\.[^\s@]+$`;
  - the messages follow the trim rules;
  - editing a field clears only that field's message.
- **Header** (`Header`). The header hides exactly on a downward scroll past 60. It never hides while the menu is open.
- **Page shell** (`App`). The shell's handlers move between the pages. Any page value shows at most one view.
- **FAQ** (`Faq`). At most one answer is open at a time.

Files:

- `wrappers.dfy`: the option type.
- `js_string.dfy`: the JavaScript string built-ins the views call (`split`, `replace`, `trim`), plus `IndexOf` and `Join`, which the model adds to state the address check and the split round trip.
- `questions.dfy`, `animals.dfy`: the two catalogs.
- `diagnosis.dfy`: the diagnosis pipeline, plus the finding below.
- `result_view.dfy`, `quiz.dfy`, `start_form.dfy`, `header.dfy`, `app.dfy`, `faq.dfy`: the views.

Scores are raw sums of the answers, each starting at 0 (src/logic/diagnosis.ts:20-33). The animal is the one whose ideal profile lies nearest by squared distance (src/logic/diagnosis.ts:39-59).

## Model

| member | source | states |
|---|---|---|
| Questions.KeysEnumerateParameterKey | src/data/questions.ts:1-10 | the nine dimensions, in the order Respect … Innovation, each exactly once |
| Questions.KeyIndex | src/data/questions.ts:1-10 | every dimension has a position below nine at which the ordered key list holds it |
| Questions.QuestionIdsAreSequential | src/data/questions.ts:23-42 | 18 questions whose ids are 1..18 in array order, pairwise distinct; an id is a question id exactly when it lies in 1..18 |
| Questions.WeightCountsAndRanges | src/data/questions.ts:24-41 | every question has 3 or 4 weights, each between -1.0 and 1.5 in tenths |
| Questions.LastWeightIsNegative | src/data/questions.ts:24-41 | every question's last weight is negative |
| Questions.WeightKeysAreDistinct | src/data/questions.ts:12-14 | no question weights the same dimension twice |
| Questions.FirstWeightDominates | src/data/questions.ts:24-41 | every question's first weight is positive and strictly the largest of its weights |
| Questions.ParameterKeyIsFirstWeightKey | src/data/questions.ts:24-41 | the dimension a question scores into is its first weight's dimension |
| Questions.TwoQuestionsPerDimension | src/data/questions.ts:24-41 | questions 2k-1 and 2k both score into dimension k, two questions per dimension |
| Animals.AnimalIdsAreDistinct | src/data/types.ts:13-182 | 12 animals with pairwise distinct ids; the first is the lion |
| Animals.IdealValuesInRange | src/data/types.ts:21-180 | every ideal profile value lies in 4..10 |
| Animals.IdealProfilesAreDistinct | src/data/types.ts:21-180 | no two animals share an ideal profile |
| Animals.IdsMatchIconNames | src/components/FloatingIcons.tsx:4-8 | the catalog ids are exactly the floating icons' image names |
| Diagnosis.LabelsAreDistinct | src/logic/diagnosis.ts:6-16 | no two dimensions share a label |
| Diagnosis.AddTo | src/logic/diagnosis.ts:31 | adding to a dimension changes that dimension by the value and leaves the other eight |
| Diagnosis.Find | src/logic/diagnosis.ts:29 | no question is found exactly when no id matches; a found question is the first one with that id |
| Diagnosis.CalculateScores | src/logic/diagnosis.ts:19-36 | the scores, whatever order the answers are visited in, equal the per-dimension sum of the answers to that dimension's questions |
| Diagnosis.CalculateScoresOver | src/logic/diagnosis.ts:19-36 | the same, for any catalog with distinct ids |
| Diagnosis.NoAnswersScoreZero | src/logic/diagnosis.ts:20-23 | with no answers, all nine scores are 0 |
| Diagnosis.ScoresAfterAnswer | src/logic/diagnosis.ts:27-33 | one more answer either changes nothing (unknown id) or adds its value to its question's dimension |
| Diagnosis.UnknownAnswerIsIgnored | src/logic/diagnosis.ts:29-30 | an answer whose id matches no question leaves every score unchanged |
| Diagnosis.KnownAnswerCreditsItsDimension | src/logic/diagnosis.ts:29-32 | an answer to a known question adds its value to exactly that question's dimension |
| Diagnosis.ScoresTotalIsAnsweredSum | src/logic/diagnosis.ts:27-33 | the nine scores add up to the sum of the answers to known questions |
| Diagnosis.KeySumsAddUp | src/logic/diagnosis.ts:27-33 | for any catalog, the nine per-dimension sums add up to the answered sum |
| Diagnosis.FullAnswerScores | src/logic/diagnosis.ts:25-26 | with all 18 answered, dimension k scores answer 2k+1 plus answer 2k+2; with answers in 1..5, every score lies in 2..10 |
| Diagnosis.SquaredDistanceIsZeroExactlyOnEqualProfiles | src/logic/diagnosis.ts:44-49 | the squared distance is never negative and is 0 exactly for equal profiles |
| Diagnosis.Distances | src/logic/diagnosis.ts:43-49 | one squared distance per animal, in catalog order |
| Diagnosis.FirstMinimum | src/logic/diagnosis.ts:52-55 | the chosen position holds the least distance and every earlier position a strictly larger one |
| Diagnosis.FirstMinimumIsUnique | src/logic/diagnosis.ts:52-55 | only one position has that property, so ties go to the earliest |
| Diagnosis.DetermineAnimal | src/logic/diagnosis.ts:39-59 | the returned animal is the catalog's first nearest animal |
| Diagnosis.DetermineAnimalIndex | src/logic/diagnosis.ts:40-56 | the loop with its strict `<` ends on the first nearest index, whose distance is at most every animal's |
| Diagnosis.ExactIdealIsChosen | src/logic/diagnosis.ts:39-59 | a profile equal to an animal's ideal profile picks that animal |
| Diagnosis.FirstMaximum | src/logic/diagnosis.ts:66-71 | the chosen position holds the highest score and every earlier position a strictly lower one |
| Diagnosis.FirstMaximumIsUnique | src/logic/diagnosis.ts:66-71 | only one position has that property |
| Diagnosis.DominantKey | src/logic/diagnosis.ts:63-71 | no contract of its own: the loop's choice as a function of the scores, whose meaning Diagnosis.DominantKeyIsFirstHighest states |
| Diagnosis.DominantKeyIsFirstHighest | src/logic/diagnosis.ts:63-71 | the praised dimension is Respect when no score exceeds -1, and otherwise the first highest dimension |
| Diagnosis.GenerateAIComment | src/logic/diagnosis.ts:61-89 | the comment is the fixed template around the praised dimension's label and affirmation; the animal plays no part |
| Diagnosis.ScoresAsWritten | src/logic/diagnosis.ts:19-36 | no contract of its own: the scorer as shipped, adding every answer to the stray `undefined` entry; Diagnosis.ScoresAsWrittenStayZero states what it yields |
| Diagnosis.ScoresAsWrittenStayZero | src/logic/diagnosis.ts:31 | as written, the nine scores stay 0, and any answer to a known question turns the stray `undefined` entry into NaN |
| Diagnosis.NearestAsWrittenKeepsFirst | src/logic/diagnosis.ts:43-58 | as written, a NaN distance never passes `<`, so the first animal is kept |
| Diagnosis.AllFivesAsWritten | src/logic/diagnosis.ts:19-89 | answering 5 everywhere should score 10 in every dimension; as written it scores 0 with a NaN entry, matches the lion and praises Respect |
| ResultView.ComputeResult | src/views/ResultView.tsx:76-81 | scores from the answers, then the animal and the comment each from those scores |
| ResultView.RankingIsOrderedPermutation | src/views/ResultView.tsx:87-88 | the sorted dimensions are a permutation of the nine, in non-increasing score order, ties kept in key order |
| ResultView.RankingCoversEveryDimension | src/views/ResultView.tsx:87-88 | every dimension appears in the sorted order |
| ResultView.TopStrengths | src/views/ResultView.tsx:86-91 | exactly three labels, those of the first three sorted dimensions: three different labels in non-increasing score order with ties in key order, and every dimension whose label is left out ranks after the third |
| ResultView.RankingLeadsWithTheHighest | src/views/ResultView.tsx:87-88 | the first three sorted dimensions are distinct, in non-increasing score order with ties in key order, and every other dimension ranks after the third |
| ResultView.TopStrengthMatchesComment | src/views/ResultView.tsx:268 | when some score exceeds -1, the first strength is the dimension the comment praises |
| ResultView.HeadingFirstLine | src/views/ResultView.tsx:170 | the first line is bracketed by 「 and 」 and holds no other 」 |
| ResultView.HeadingSecondLine | src/views/ResultView.tsx:171 | there is a second line exactly when the catchphrase holds a 」; it holds no 」 itself |
| ResultView.HeadingOfBracketedPhrase | src/views/ResultView.tsx:170-171 | for 「X」Y with no 」 in X or Y, the heading lines are 「X」 and Y |
| ResultView.CatalogHeadingsShowWholeCatchphrase | src/data/types.ts:17-171 | every catalog catchphrase has that form, so its heading shows it whole |
| JsString.IndexOf | src/views/ResultView.tsx:170 | no position exactly when the character is absent; otherwise its first position |
| JsString.Split | src/views/ResultView.tsx:170-171 | at least one piece, none holding the separator |
| JsString.JoinSplitRoundTrip | src/views/ResultView.tsx:170-171 | joining the pieces of a split gives back the string |
| JsString.SplitJoinRoundTrip | src/views/ResultView.tsx:170-171 | splitting a join of separator-free pieces gives back the pieces |
| JsString.TrimIsEmptyExactlyOnBlank | src/views/NewStartView.tsx:23 | a trimmed string is empty exactly when it is all whitespace; otherwise it neither starts nor ends with whitespace |
| Quiz.QuizView.constructor | src/views/QuizView.tsx:18-19 | the quiz starts at the first question with no answers |
| Quiz.QuizView.HandleAnswer | src/views/QuizView.tsx:21-31 | the answer is stored under the current question's id; before the last question the index advances by one, at the last the answers are handed on and the index stays |
| Quiz.QuizView.Click | src/views/QuizView.tsx:211 | a click on any card but the active one changes nothing |
| Quiz.AnswerEveryQuestion | src/views/QuizView.tsx:21-31 | answering all 18 in order finishes exactly once, with exactly the ids 1..18 holding the answers given |
| Quiz.CardStateOf | src/views/QuizView.tsx:68-70 | no contract of its own: the card's state from its position; Quiz.OneActiveCard states its meaning |
| Quiz.OneActiveCard | src/views/QuizView.tsx:68-70 | earlier cards are history, later ones future, and exactly the current card is active |
| Quiz.CardPose | src/views/QuizView.tsx:75-112 | the sideways offset is twice the tilt; the tilt is the answer's tilt plus the jitter on history cards only |
| Quiz.Jitter | src/views/QuizView.tsx:108 | the jitter lies in -2..1 |
| Quiz.JitterFollowsIndexModFour | src/views/QuizView.tsx:108 | the jitter is the card's position modulo 4, minus 2 |
| Quiz.Tilt | src/views/QuizView.tsx:78-104 | between -10 and 10 degrees in steps of 5; negative (left) exactly for the agreeing answers 4 and 5, positive (right) exactly for 1 and 2 |
| Quiz.OppositeAnswersTiltOpposite | src/views/QuizView.tsx:80-103 | answers v and 6-v tilt opposite ways by the same amount; 3 does not tilt |
| StartForm.ValidateEmail | src/views/NewStartView.tsx:14-17 | no contract of its own: the pattern decided on the first `@`; StartForm.ValidateEmailIsThePattern states that it is the pattern |
| StartForm.ValidateEmailIsThePattern | src/views/NewStartView.tsx:14-17 | the address check accepts exactly local@host.tld with three non-empty runs free of whitespace and `@` |
| StartForm.ValidEmailHasOneAtAndNoSpace | src/views/NewStartView.tsx:15 | an accepted address has no whitespace and exactly one `@` |
| StartForm.PaddedEmailIsRejected | src/views/NewStartView.tsx:14-17 | `validateEmail` alone refuses a string with whitespace at either end; in the page only whitespace the browser does not strip from an e-mail field (such as U+3000, U+00A0 or a vertical tab) reaches it that way |
| StartForm.CheckFields | src/views/NewStartView.tsx:21-31 | a name message exactly for a blank name; the "enter" message exactly for a blank address, the "correct address" message exactly for a non-blank address the check refuses; no message at all exactly when the form is good |
| StartForm.StartForm.constructor | src/views/NewStartView.tsx:10-12 | the form starts empty, with no messages |
| StartForm.StartForm.Submit | src/views/NewStartView.tsx:19-39 | the quiz starts exactly when the name is not blank and the address passes, with both as typed; otherwise the messages are replaced by the new ones |
| StartForm.StartForm.EditName | src/views/NewStartView.tsx:104-107 | typing a name clears the name's message and keeps the address's |
| StartForm.StartForm.EditEmail | src/views/NewStartView.tsx:148-151 | typing an address clears the address's message and keeps the name's |
| Header.AtMostOneActiveItem | src/components/Header.tsx:13-18 | at most one menu entry is highlighted |
| Header.Header.constructor | src/components/Header.tsx:11-27 | the menu starts closed, the header visible, the last offset 0 |
| Header.Header.Scroll | src/components/Header.tsx:30-45 | with the menu open nothing changes; otherwise the header hides exactly on a move down past 60 and the offset is remembered |
| Header.Header.ToggleMenu | src/components/Header.tsx:52-65 | the button flips the menu, and opening it shows the header |
| Header.Header.CloseMenu | src/components/Header.tsx:73 | a click beside the menu closes it |
| Header.Header.ChooseMenuItem | src/components/Header.tsx:20-23 | choosing an entry leads to its page and closes the menu |
| App.AtMostOneViewRenders | src/App.tsx:48-53 | any page value shows at most one view; a value that is not a page shows none |
| App.RenderedOfDistinctPages | src/App.tsx:48-53 | with distinct route names, at most one view matches, namely the matching route's |
| App.HeaderNeverOpensQuizOrResult | src/components/Header.tsx:13-18 | neither the menu nor the logo leads to the quiz or the result page |
| App.App.constructor | src/App.tsx:19-21 | the shell starts on the start page with no user and no answers |
| App.App.Start | src/App.tsx:23-27 | starting keeps the user, clears the answers and shows the quiz |
| App.App.FinishQuiz | src/App.tsx:29-32 | called from the quiz page, finishing keeps the answers and the user and shows the result, which therefore has a user |
| App.App.Retry | src/App.tsx:34-38 | retrying clears the answers and the user and shows the start page |
| App.App.Navigate | src/App.tsx:40-42 | any page value is stored unchecked; pages other than the quiz and the result keep the shell valid |
| Faq.ShownAnswers | src/views/FAQView.tsx:96-115 | the answers on show are the open entry's alone, or none |
| Faq.ChevronRotation | src/views/FAQView.tsx:88 | exactly the open entry's chevron is turned by 180 degrees |
| Faq.FaqView.constructor | src/views/FAQView.tsx:33 | no entry starts open |
| Faq.FaqView.Click | src/views/FAQView.tsx:71 | clicking the open entry closes it; clicking another opens it and closes the rest |
| Faq.ClickFlipsOnlyTheClickedEntry | src/views/FAQView.tsx:71 | a click flips whether the clicked entry's answer shows, and no other answer shows |

## Left out

- Question texts and images, the animals' descriptions and legend fields, the FAQ texts, and the menu labels' styling: display data, not decision logic. Only the fields the logic reads are modelled.
- The question weights are modelled as catalog data only. The scorer never reads them.
- Diagnosis.CalculateScores: the answers are modelled with integer keys. The code's string keys and `parseInt` are left out, because the quiz only ever stores integer ids. The scores model a corrected catalog in which each question carries the dimension the scorer reads (see Findings).
- ResultView.ComputeResult: the result page is modelled on the corrected scores. The as-written pipeline is modelled separately in Diagnosis.
- The radar chart: floating-point trigonometry and SVG strings.
- The 2.5-second loading timer, the console logging, the image fallback and all animation settings: timing and presentation only.
- The legend episodes: their data module is not part of this model.
- The quiz's progress percentage: a floating-point display value.
- Header.Header.Scroll: the scroll offset is an integer parameter. The browser's fractional `scrollY` and the listener registration are left out. The effect that shows the header on opening the menu is folded into Header.Header.ToggleMenu.
- Whitespace: `\s` and `trim` share one predicate, covering the ECMAScript whitespace and line-terminator characters.
- The floating icons, loading, about, old start and encyclopedia views are static or random animation.
- StartForm.StartForm.Submit: the browser's own handling of the `type="email"` field (src/views/NewStartView.tsx:146) is not modelled. It strips line breaks and leading and trailing ASCII whitespace from the value, and its built-in constraint check cancels the submit event (src/views/NewStartView.tsx:67) for values such as `abc`, so `handleSubmit` never runs for them. The model's `Submit` runs `handleSubmit` on the value as given.
- StartForm.StartForm.EditEmail: the value stored is the typed text; the browser's sanitization of the e-mail field's value is not modelled.
- Callbacks such as `onStart`, `onFinish` and `onNavigate` are modelled as returned values.

## Findings

| source | as written | input that shows it | evidently intended | confidence | as-written member | corrected member |
|---|---|---|---|---|---|---|
| src/logic/diagnosis.ts:31 | `question.parameterKey` is read, but questions (src/data/questions.ts:16-21) have no such field. Every answer goes to a stray `undefined` entry as NaN, and the nine scores stay 0. | answering 5 to all 18 questions: scores all 0 plus a NaN entry, lion chosen, Respect praised | each answer adds to its question's dimension (its first weight's dimension, two questions per dimension); all fives give 10 everywhere | not executed | Diagnosis.AllFivesAsWritten | Diagnosis.FullAnswerScores |
