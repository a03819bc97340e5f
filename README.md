# Learning Gap Detector — a Dafny model of its core

The Learning Gap Detector is a Next.js web application. Teachers and parents
fill in Likert questionnaires about a student, and the student takes a
ten-question learning-style quiz and plays five mini-games. A simulated
"AI service" turns the answers into three things: a learning-style profile
(visual, auditory, reading, kinesthetic), a risk level with its factors and
gaps, and a list of recommendations. It also offers text analysis and
accessibility conversions of uploaded text. A small client-side user store
keeps the role that is logged in.

This project models that core in Dafny and proves what it promises:

* `AiService` covers `analyzeStudent` and `getStyleRecommendation`.
  * A specification function, `Analysis`, gives the whole result.
  * An imperative method, `AnalyzeStudent`, follows the code's loops and pushes and is proved equal to `Analysis`.
  * Lemmas state the scoring, tie-break, risk, gap and recommendation rules.
* `AiText` covers `analyzeText` and `convertContent`. Lemmas describe the shape of every output format.
* Four modules stand for JavaScript built-ins that the code relies on:
  * `JsText`: `split`, `join`, `trim`, `toUpperCase`/`toLowerCase`, `includes`, `slice` and number-to-string.
  * `JsObject`: a plain object as an insertion-ordered list of entries, property assignment, a `forEach` counting tally, and the stable descending sort behind `Object.entries(..).sort(..)[0]`.
  * `JsArray`: `map` and `filter`.
  * `Wrappers`: `Option`.
* `QuizPage` covers the student quiz. A class holds the page's state, and `calculateResult` is a loop proved against a specification function.
* Each game is a class whose fields are the component's state:
  * `MemoryMatch`
  * `PatternRecall`
  * `QuickMath`
  * `WordMatch`
  * `ColorSorting`

  `GameFeedback` is the shared correct/wrong feedback.
* `UserStore` models the user store. It is a value-level specification (`SetUser`, `GetUser`, `UpdateUser`, `Reload`), plus a class `UserSession` whose methods are proved equal to it.
* `ApiEnvelope`, `AnalyzeRoute` and `ConvertRoute` model the two `POST` API routes and their JSON envelope.
* `TeacherQuestionnaire` and `ParentQuestionnaire` model the multi-step questionnaires.
* `ProcessingResults` models the animated processing page, and `TeacherResults` the teacher's results list with its search filter.

Randomness, timers and the browser's `window` are parameters:

* a shuffled deck, the drawn operands, the next colour;
* a `hasWindow` flag;
* a timer tick, modelled as one method call.

Two points where the model follows the code rather than the application's description of itself:

* Quiz answers that name no style are not dropped. The style-score object gains a new key for each such label, so an unknown label can become the primary style (`AiService.UnknownLabelCanBePrimary`).
* When quiz answers are present but empty, every style scores 0 instead of 25 (`AiService.EmptyQuizScoresZero`). Visual still comes out as primary.

## Model

| member | source | states |
|---|---|---|
| AiService.SumValues | lib/ai-service.ts:74-75 | the `reduce` loop returns the sum of the record's values |
| AiService.AnyBelowThree | lib/ai-service.ts:109 | the loop finds a value below 3 exactly when some value of the record is below 3 |
| AiService.ScoreStyles | lib/ai-service.ts:58-65 | the `forEach` loop over the quiz answers builds exactly the style-score object of the specification (25 each without a quiz, 10 per answer with one) |
| AiService.AssessRisk | lib/ai-service.ts:70-94 | the accumulated risk score and factor list are those of the specification: 30 per respondent whose mean is below 3, 20 for a diagnosis, factors in the order teacher, parent, diagnosis |
| AiService.CollectGaps | lib/ai-service.ts:99-115 | the pushed gaps are those of the specification, given the risk score already computed |
| AiService.AnalyzeStudent | lib/ai-service.ts:53-170 | the whole analysis result, built step by step, equals the specification `Analysis` |
| AiService.ZeroScoresValue | lib/ai-service.ts:61 | the reset score object has the four style keys in order, each 0 |
| AiService.NoNewKeys | lib/ai-service.ts:62-64 | answers drawn from the four styles add no key to the score object |
| AiService.UniformKeys | lib/ai-service.ts:58 | the default score object has the four style keys in order |
| AiService.UniformValues | lib/ai-service.ts:58 | every style scores 25 in the default object |
| AiService.UniformTop | lib/ai-service.ts:58-67 | the sort of the default object puts visual first |
| AiService.NoQuizIsUniform | lib/ai-service.ts:58-67 | without quiz answers, every style scores 25 and visual is primary |
| AiService.QuizScores | lib/ai-service.ts:60-65 | with quiz answers, each key scores 10 times its number of occurrences; the keys are the four styles followed by the unknown labels in order of first occurrence |
| AiService.EmptyQuizScoresZero | lib/ai-service.ts:60-61 | an empty answer list resets every style to 0 and keeps the four keys |
| AiService.PrimaryIsEarliestMax | lib/ai-service.ts:67 | the primary style is the key of the earliest maximal score, the four styles being the first keys, so ties go to the earliest style |
| AiService.PrimaryAmongStyles | lib/ai-service.ts:58-67 | when every quiz answer is a style, the primary style is one of the four |
| AiService.UnknownLabelScores | lib/ai-service.ts:61-64 | a single label outside the styles is appended as its own key with score 10 after the four zeros |
| AiService.UnknownLabelCanBePrimary | lib/ai-service.ts:61-67 | such a label, answered once, becomes the primary style |
| AiService.ExampleCounts | lib/ai-service.ts:62-64 | occurrence counts in the answers visual, visual, kinesthetic |
| AiService.QuizExample | lib/ai-service.ts:58-67 | visual, visual, kinesthetic score 20, 0, 0, 10 and make visual primary |
| AiService.RiskLevelRule | lib/ai-service.ts:70-96 | the risk score is one of 0, 20, 30, 50, 60, 80; the level is Low exactly when neither mean is below 3, and High exactly when both are, or one is and there is a diagnosis |
| AiService.StyleNamesDiffer | lib/ai-service.ts:58 | the four style keys are pairwise distinct |
| AiService.FactorNamesDiffer | lib/ai-service.ts:78-155 | the four factor texts are pairwise distinct |
| AiService.RiskFactorsRule | lib/ai-service.ts:71-155 | each factor is reported exactly when its rule fires, in the order teacher, parent, diagnosis; the placeholder factor appears exactly when none fired |
| AiService.EmptyRecordAddsNothing | lib/ai-service.ts:73-109 | an empty response record has no mean (NaN is not below 3) and adds no risk and no reading gap |
| AiService.GapRules | lib/ai-service.ts:99-166 | "Attention & Focus" appears exactly when the risk score exceeds 20, and is significant exactly above 40; "Reading Comprehension" appears exactly when some teacher rating is below 3; otherwise the gap list is the single placeholder |
| AiService.RecommendationRules | lib/ai-service.ts:118-146 | three recommendations at Low risk; otherwise four, with the additional-support one first and the other three unchanged after it; the classroom title is the capitalised style name |
| AiService.StyleAdviceTable | lib/ai-service.ts:172-182 | the four styles get pairwise different advice, and any other own key (not an inherited property name) gets the visual advice |
| AiService.TeacherOnlyExample | lib/ai-service.ts:73-96 | teacher ratings 1 and 1 alone give score 30, level Medium and one factor |
| AiService.HighRiskExample | lib/ai-service.ts:73-96 | a low teacher mean, a low parent mean and a diagnosis give score 80, level High |
| AiText.SentencesArePieces | lib/ai-service.ts:197 | the sentences are exactly the pieces between periods that are not all whitespace; none contains a period; there are at most one more than the periods |
| AiText.SentimentRule | lib/ai-service.ts:201 | the sentiment is "Concerning" exactly when the lower-cased text contains "struggle" or "difficult", and "Positive" otherwise |
| AiText.LowerUpper | lib/ai-service.ts:201 | on ASCII text, lower-casing after upper-casing equals lower-casing |
| AiText.SentimentIgnoresCase | lib/ai-service.ts:201 | on ASCII text, the sentiment of the upper-cased text is the same |
| AiText.SummaryParts | lib/ai-service.ts:202-203 | the summary is the fixed lead, the decimal sentence count, the fixed middle, the first 100 characters and the ellipsis; the second theme is the detailed one exactly when there are more than 3 sentences |
| AiText.OtherFormatIsIdentity | lib/ai-service.ts:240-241 | an unknown format returns the text unchanged |
| AiText.TrimFilterCommute | lib/ai-service.ts:218-219 | trimming and then dropping empty pieces equals dropping whitespace-only pieces and then trimming |
| AiText.KeyPointsAreTrimmedSentences | lib/ai-service.ts:215-219 | the bullet points are the trimmed sentences, one per sentence |
| AiText.KeyPointsShape | lib/ai-service.ts:215-219 | every point is non-empty, has no period and no surrounding whitespace; every sentence contributes its trimmed form |
| AiText.JoinStartsWithFirst | lib/ai-service.ts:221 | a join starts with its first part |
| AiText.SimplifiedShape | lib/ai-service.ts:215-221 | the simplified text is empty exactly when there are no points, and starts with a bullet and the first point |
| AiText.ArrowFilterCommute | lib/ai-service.ts:226-227 | prefixing arrows and dropping bare arrows equals dropping whitespace-only pieces and then prefixing |
| AiText.VisualMatchesSimplified | lib/ai-service.ts:223-230 | the visual lines are the same points as the simplified format, with arrows instead of bullets, inside the key-points and main-idea frame |
| AiText.DyslexiaShape | lib/ai-service.ts:232-233 | the dyslexia format doubles the spaces, breaks after the periods and upper-cases; it is already upper-case, and its length grows by one per space and two per period |
| AiText.AudioShape | lib/ai-service.ts:235-238 | the audio script is the opening, the text with a pause after each period, and the closing; its length is accounted for exactly |
| JsText.Split | lib/ai-service.ts:197 | `split` returns at least one piece |
| JsText.SplitPieces | lib/ai-service.ts:197 | `split` gives one piece more than there are delimiters, none containing the delimiter |
| JsText.SplitJoinReplace | lib/ai-service.ts:233 | splitting and then joining replaces each delimiter by the separator |
| JsText.SplitJoinRoundTrip | lib/ai-service.ts:237-238 | splitting and then joining on the same delimiter gives back the text |
| JsText.ReplaceLength | lib/ai-service.ts:233 | the length after replacement |
| JsText.TrimShape | lib/ai-service.ts:197 | `trim` removes exactly a whitespace prefix and a whitespace suffix |
| JsText.TrimEmptyIff | lib/ai-service.ts:197 | `trim` gives the empty string exactly when the string is all whitespace |
| JsText.ToUpper | lib/ai-service.ts:233 | upper-casing keeps the length and maps each character |
| JsText.ToLower | lib/ai-service.ts:201 | lower-casing keeps the length and maps each character |
| JsText.ToUpperIdempotent | lib/ai-service.ts:233 | upper-casing twice is upper-casing once, and leaves no lower-case letter |
| JsText.IncludesAt | app/teacher/results/page.tsx:32 | `includes` holds exactly when the pattern occurs at some position |
| JsText.SliceTo | lib/ai-service.ts:203 | `slice(0, n)` is a prefix of length min(n, length) |
| JsText.NatToStringValue | lib/ai-service.ts:203 | the decimal rendering of a count reads back as that count |
| JsObject.TallyKeyOrder | lib/ai-service.ts:62-64 | the tally keeps the old keys and appends new labels in order of first occurrence |
| JsObject.TallyValue | lib/ai-service.ts:62-64 | the tally adds the increment once per occurrence of each label |
| JsObject.TallyKeys | app/student/quiz/page.tsx:155-158 | the tally has distinct keys: the old ones and the labels |
| JsObject.NewKeysOrder | app/student/quiz/page.tsx:156-158 | the new keys appear in the order of their first occurrence |
| JsObject.SortDescSorted | lib/ai-service.ts:67 | the descending sort is sorted and a permutation |
| JsObject.SortDescHead | lib/ai-service.ts:67 | the stable sort puts the earliest maximal entry first |
| JsObject.TopKeyIsFirstMax | lib/ai-service.ts:67 | `sort(..)[0][0]` is the key of the earliest maximal entry |
| JsArray.MapSeq | lib/ai-service.ts:218 | `map` applies the function at every index |
| JsArray.FilterSeq | app/teacher/results/page.tsx:32 | `filter` keeps exactly the elements that satisfy the predicate |
| JsArray.FilterAll | app/teacher/results/page.tsx:32 | `filter` returns the whole array exactly when every element satisfies the predicate |
| JsArray.FilterOrder | app/teacher/results/page.tsx:32 | `filter` keeps the original order: the result picks strictly increasing indices |
| QuizPage.OptionStyle | app/student/quiz/page.tsx:17-128 | every option button carries one of the four styles |
| QuizPage.StudentQuiz.constructor | app/student/quiz/page.tsx:135-138 | the quiz starts at question 0 with no answers, no selection and no result |
| QuizPage.StudentQuiz.SelectOption | app/student/quiz/page.tsx:297 | clicking an option selects it and changes nothing else |
| QuizPage.StudentQuiz.HandleNext | app/student/quiz/page.tsx:140-152 | without a selection nothing happens; otherwise the selected style is appended, the selection cleared, and the quiz advances or shows the result after the tenth answer |
| QuizPage.StudentQuiz.CalculateResult | app/student/quiz/page.tsx:154-161 | the counting loop returns the result of the specification |
| QuizPage.CountsShape | app/student/quiz/page.tsx:155-158 | the counts hold one entry per distinct answer, whose value is that answer's number of occurrences |
| QuizPage.QuizResultIsMostChosen | app/student/quiz/page.tsx:154-161 | the result is a most-chosen answer, or "visual" when there is none |
| QuizPage.QuizResultTieBreak | app/student/quiz/page.tsx:159 | among equally frequent answers, the one chosen first wins |
| QuizPage.QuizResultIsStyle | app/student/quiz/page.tsx:142-161 | answers recorded by the page make the result one of the four styles |
| MemoryMatch.TurnKeepsConsistent | app/student/games/page.tsx:117-121 | turning a face-down, unmatched card keeps the board consistent |
| MemoryMatch.MatchKeepsConsistent | app/student/games/page.tsx:122-128 | recording a matching pair keeps the board consistent; the game is won exactly when every card is matched |
| MemoryMatch.ClickKeepsConsistent | app/student/games/page.tsx:114-133 | every click keeps the board consistent |
| MemoryMatch.ClickRules | app/student/games/page.tsx:114-133 | a click is ignored with two cards up or on a turned or matched card; otherwise the second card costs a move, and a pair of equal cards is matched, or both stay up until the flip-back |
| MemoryMatch.MemoryGame.constructor | app/student/games/page.tsx:103-107 | an empty board, no move, not won |
| MemoryMatch.MemoryGame.Deal | app/student/games/page.tsx:109-112 | the first deal lays out the shuffled deck |
| MemoryMatch.MemoryGame.HandleCardClick | app/student/games/page.tsx:114-133 | the new state is `Click` of the old one, and the board stays consistent |
| MemoryMatch.MemoryGame.ComparePair | app/student/games/page.tsx:120-131 | with two cards up, the new state is `Compare` of the old one |
| MemoryMatch.MemoryGame.FlipBack | app/student/games/page.tsx:129-130 | the delayed flip-back, set only when two different cards are up, turns both face down and changes nothing else |
| MemoryMatch.MemoryGame.ResetGame | app/student/games/page.tsx:135-142 | a reset deals the new shuffle and clears turns, matches, moves and the win |
| MemoryMatch.Indices | app/student/games/page.tsx:126 | the indices below n, each once |
| MemoryMatch.DistinctCardinality | app/student/games/page.tsx:126 | a list without duplicates has as many distinct elements as entries |
| MemoryMatch.Pigeonhole | app/student/games/page.tsx:126 | as many distinct matched indices below n as cards means every card is matched |
| MemoryMatch.WonMeansAllMatched | app/student/games/page.tsx:126-128 | a won game has every card matched |
| MemoryMatch.DeckHasPairs | app/student/games/page.tsx:102-110 | the deck has 16 cards, each emoji exactly twice |
| PatternRecall.AnswerKeepsConsistent | app/student/games/page.tsx:232-250 | every answered colour keeps the game consistent |
| PatternRecall.AnswerRules | app/student/games/page.tsx:232-250 | a wrong colour ends the game and keeps the score; the colour that completes the pattern scores a point and extends the pattern by the drawn colour; any other right colour advances the attempt |
| PatternRecall.PatternGame.constructor | app/student/games/page.tsx:203-209 | no pattern, no score, not started |
| PatternRecall.PatternGame.StartGame | app/student/games/page.tsx:222-230 | a one-colour pattern, a fresh attempt, no score, started |
| PatternRecall.PatternGame.BeginShowing | app/student/games/page.tsx:211-213 | the animation raises the showing flag and changes nothing else |
| PatternRecall.PatternGame.EndShowing | app/student/games/page.tsx:218-219 | the animation lowers the showing flag and changes nothing else |
| PatternRecall.PatternGame.HandleColorClick | app/student/games/page.tsx:232-250 | clicks are ignored while showing, after a game over or before the start; otherwise the new state is `Answer` of the old one |
| QuickMath.CandidatesRule | app/student/games/page.tsx:322-329 | one to four buttons; the right answer is the first and occurs exactly once; every other button is non-negative and different from it |
| QuickMath.RightAnswerShown | app/student/games/page.tsx:329 | however the buttons are shuffled, the right answer is among them |
| QuickMath.OnlyRightAnswerExample | app/student/games/page.tsx:322-329 | one minus ten leaves the single button -9 |
| QuickMath.MathGame.constructor | app/student/games/page.tsx:304-310 | no score, no streak, no feedback |
| QuickMath.MathGame.GenerateQuestion | app/student/games/page.tsx:312-332 | the drawn question is set, the feedback cleared, the score kept, and the right answer is among the buttons |
| QuickMath.MathGame.HandleAnswer | app/student/games/page.tsx:338-349 | the right answer adds 10 points and extends the streak; a wrong one resets the streak; points stay multiples of 10 |
| WordMatch.OtherIcons | app/student/games/page.tsx:423-425 | the icons of the other five words |
| WordMatch.IconsDistinct | app/student/games/page.tsx:404-411 | the six icons are pairwise different |
| WordMatch.ButtonsRule | app/student/games/page.tsx:419-430 | four buttons: the word's icon exactly once, then three icons of other words |
| WordMatch.WordMatchGame.constructor | app/student/games/page.tsx:413-417 | the first pair, no buttons, no score |
| WordMatch.WordMatchGame.GenerateQuestion | app/student/games/page.tsx:419-432 | the drawn pair is set, with four buttons among which its icon, and the feedback cleared |
| WordMatch.WordMatchGame.HandleAnswer | app/student/games/page.tsx:438-447 | every answer counts toward the total; the right icon scores a point; the score never exceeds the total |
| ColorSorting.ItemColors | app/student/games/page.tsx:496-509 | the colour of each of the twelve items |
| ColorSorting.ColorNamesDiffer | app/student/games/page.tsx:536-541 | the four button colours are pairwise different |
| ColorSorting.EachItemHasOneButton | app/student/games/page.tsx:496-541 | every item's colour is exactly one of the four buttons |
| ColorSorting.ThreeOfEachColor | app/student/games/page.tsx:496-509 | each button colour has exactly three items |
| ColorSorting.SortingGame.constructor | app/student/games/page.tsx:510-513 | the first item, no score |
| ColorSorting.SortingGame.GenerateItem | app/student/games/page.tsx:515-519 | the drawn item is set and the feedback cleared |
| ColorSorting.SortingGame.HandleSort | app/student/games/page.tsx:525-534 | every sort counts toward the total; the item's colour scores a point; the score never exceeds the total |
| UserStore.ParseRole | lib/user-store.ts:123 | a stored text is read back as the role it names |
| UserStore.ParseRoleName | lib/user-store.ts:117-125 | a stored role name reads back as that role |
| UserStore.DefaultUser | lib/user-store.ts:46-71 | the demo user of a role has that role |
| UserStore.Reload | lib/user-store.ts:112 | a page load forgets the current user and keeps the storage |
| UserStore.CachedUserReturned | lib/user-store.ts:121-122 | a cached user is returned without touching the store |
| UserStore.SetThenGet | lib/user-store.ts:114-131 | after logging in as a role, that role's demo user is current, and with a window it survives a page load |
| UserStore.NoWindowForgets | lib/user-store.ts:121-131 | without a window nothing survives a page load |
| UserStore.UpdateWithoutUser | lib/user-store.ts:133-134 | a profile update without a current user changes nothing |
| UserStore.UpdateRules | lib/user-store.ts:133-140 | an update overrides exactly the given fields, and with a window saves the profile under `user_<role>` |
| UserStore.ProfileKeyIsNotRoleKey | lib/user-store.ts:118-137 | a saved profile never overwrites the stored role |
| UserStore.EditLostOnReload | lib/user-store.ts:114-140 | an edited profile is saved but not read back after a page load: the demo user returns |
| UserStore.UserSession.constructor | lib/user-store.ts:112 | no current user |
| UserStore.UserSession.SetCurrentUser | lib/user-store.ts:114-119 | the new state is `SetUser` of the old one |
| UserStore.UserSession.GetCurrentUser | lib/user-store.ts:121-131 | the result and the new state are `GetUser` of the old state |
| UserStore.UserSession.UpdateUserProfile | lib/user-store.ts:133-140 | the new state is `UpdateUser` of the old one |
| ApiEnvelope.Succeed | app/api/analyze/route.ts:51-55 | a success carries status 200, the data and no error |
| ApiEnvelope.Fail | app/api/analyze/route.ts:42-45 | a failure carries the status, no data and the message |
| AnalyzeRoute.Post | app/api/analyze/route.ts:36-60 | every response is well formed, with status 200, 400 or 500 |
| AnalyzeRoute.PostRules | app/api/analyze/route.ts:36-60 | an unreadable body gives 500; a body without any of the three sources gives 400; otherwise 200 with the analysis |
| AnalyzeRoute.EmptySourcePasses | app/api/analyze/route.ts:41 | a present but empty source passes the validation |
| ConvertRoute.Post | app/api/convert/route.ts:24-43 | every response is well formed, with status 200, 400 or 500 |
| ConvertRoute.PostRules | app/api/convert/route.ts:24-43 | an unreadable body gives 500; a missing or empty text or format gives 400; otherwise 200 with the converted text |
| ConvertRoute.UnknownFormatEchoes | app/api/convert/route.ts:28-38 | an unknown format is accepted and echoes the text |
| TeacherQuestionnaire.PageQuestions | app/teacher/questionnaire/page.tsx:96-144 | step 1 shows questions 0 to 5 and step 2 questions 6 to 11 |
| TeacherQuestionnaire.EachQuestionOnOnePage | app/teacher/questionnaire/page.tsx:96-144 | each of the twelve questions is on exactly one step |
| TeacherQuestionnaire.Questionnaire.constructor | app/teacher/questionnaire/page.tsx:31-38 | step 0, twelve unanswered ratings |
| TeacherQuestionnaire.Questionnaire.HandleLikertChange | app/teacher/questionnaire/page.tsx:40-44 | the chosen rating replaces that answer and no other |
| TeacherQuestionnaire.Questionnaire.PressRating | app/teacher/questionnaire/page.tsx:96-144 | a rating button on the current step sets that step's question and no other |
| TeacherQuestionnaire.Questionnaire.Back | app/teacher/questionnaire/page.tsx:238-242 | one step back, answers kept |
| TeacherQuestionnaire.Questionnaire.Next | app/teacher/questionnaire/page.tsx:243-247 | one step forward, answers kept |
| TeacherQuestionnaire.Questionnaire.Submit | app/teacher/questionnaire/page.tsx:248-251 | submitted from the last step, answers kept |
| ParentQuestionnaire.PageQuestions | app/parent/questionnaire/page.tsx:65-113 | step 0 shows questions 0 to 3 and step 1 questions 4 to 7 |
| ParentQuestionnaire.EachQuestionOnOnePage | app/parent/questionnaire/page.tsx:65-113 | each of the eight questions is on exactly one step |
| ParentQuestionnaire.Questionnaire.constructor | app/parent/questionnaire/page.tsx:27-33 | step 0, eight unanswered ratings, no diagnosis |
| ParentQuestionnaire.Questionnaire.HandleLikertChange | app/parent/questionnaire/page.tsx:35-39 | the chosen rating replaces that answer and no other |
| ParentQuestionnaire.Questionnaire.PressRating | app/parent/questionnaire/page.tsx:65-113 | a rating button on the current step sets that step's question and no other |
| ParentQuestionnaire.Questionnaire.SetDiagnosis | app/parent/questionnaire/page.tsx:144-147 | the checkbox sets the diagnosis flag and nothing else |
| ParentQuestionnaire.Questionnaire.Back | app/parent/questionnaire/page.tsx:210-214 | one step back, answers kept |
| ParentQuestionnaire.Questionnaire.Next | app/parent/questionnaire/page.tsx:215-219 | one step forward, answers kept |
| ParentQuestionnaire.Questionnaire.Submit | app/parent/questionnaire/page.tsx:220-223 | submitted from the last step, answers kept |
| ProcessingResults.StageOf | app/teacher/results/new/page.tsx:37 | the stage is a valid index into the five stages, with 20 progress points per stage |
| ProcessingResults.StageMonotone | app/teacher/results/new/page.tsx:37 | more progress never means an earlier stage |
| ProcessingResults.ProgressAfterValue | app/teacher/results/new/page.tsx:22-31 | after n ticks the progress is min(2n, 100), and stays even and at most 100 |
| ProcessingResults.Dots | app/teacher/results/new/page.tsx:61-66 | one dot per stage |
| ProcessingResults.DotsRule | app/teacher/results/new/page.tsx:61-66 | exactly the dots up to the current stage are lit, as a prefix |
| ProcessingResults.Processing.constructor | app/teacher/results/new/page.tsx:10-11 | progress 0, stage 0, running |
| ProcessingResults.Processing.Tick | app/teacher/results/new/page.tsx:22-31 | a tick adds 2 below 100; at 100 it stops the interval and schedules the redirect |
| ProcessingResults.Processing.SyncStage | app/teacher/results/new/page.tsx:36-38 | the stage follows the progress and never goes back |
| TeacherResults.FilterRules | app/teacher/results/page.tsx:32 | the list shows exactly the students whose lower-cased name contains the lower-cased query, in the original order |
| TeacherResults.EmptyQueryListsAll | app/teacher/results/page.tsx:32 | an empty query lists every student |
| TeacherResults.SummaryCountsWholeList | app/teacher/results/page.tsx:32-62 | the total assessed is the length of the whole list, not of the filtered one: never less than what a search shows, and a search shows the whole list exactly when every student matches |
| TeacherResults.AtRiskMatchesList | app/teacher/results/page.tsx:16-62 | the fixed at-risk count of 1 agrees with the one High-risk student in the list |

## Left out

- Integer-like object keys: JavaScript enumerates keys such as "0" before the others, whatever their insertion order. The model keeps insertion order for every key, so a quiz label that looks like an integer is not ordered as the code would order it.
- Inherited object properties: a quiz label such as "constructor" would read an inherited property of the score object. The model treats every label as a plain key.
- AiService.StyleAdvice: `recs[style] || recs.visual` returns an inherited property for a style named "constructor", "toString" or "__proto__"; the model returns the visual advice for every key that is not one of the four styles.
- UserStore.GetUser: a stored role that names an inherited property (such as "constructor") makes `defaultUsers[role]` a truthy inherited value; the model restores no user for any text that is not one of the three roles.
- AiText.LowerUpper: stated for ASCII text only, because JavaScript's full case mapping does not undo itself (the long s upper-cases to "S").
- AiText.SentimentIgnoresCase: stated for ASCII text only; with full case mapping, upper-casing can create a keyword (the long s in "struggle").
- Floating point: means are compared as `sum < 3 * count`, which is the code's `avg < 3` for integer ratings. An empty record gives NaN, which is not below 3, and the model gives false there too.
- JsText.ToUpper: maps only the ASCII letters; Unicode case mapping is not modelled.
- JsText.ToLower: maps only the ASCII letters; Unicode case mapping is not modelled.
- Strings are sequences of Unicode scalar values, not UTF-16 code units, so `slice(0, 100)` and `slice(0, 150)` count scalar values.
- The simulated delays of `analyzeStudent`, `analyzeText` and `convertContent` (`setTimeout` before the result) are not modelled. A result is a function of the input alone.
- `Math.random` and the `sort(() => Math.random() - 0.5)` shuffles are parameters: a draw, or a shuffled list required to be a permutation of the list the code shuffles. The bias of that shuffle is not modelled.
- Timers: the memory game's one-second flip-back, the games' next-question delays and the processing page's interval and redirect are separate methods (`FlipBack`, `GenerateQuestion`, `Tick`) that the caller invokes.
- MemoryMatch.MemoryGame.HandleCardClick: the class invariant does not carry the fact that the cards are a shuffle of the eight emoji pairs. Only `Deal` and `ResetGame` require it of their argument, and `DeckHasPairs` states it of the deck.
- PatternRecall: the `activeColor` highlight of `showPattern` and its half-second steps are reduced to the `isShowing` flag.
- The games' `activeGame` menu, scores displayed and all rendering are not modelled.
- `localStorage` is a map from keys to stored items. `JSON.stringify` is kept abstract as the serialized user; no parser is modelled, because the code never reads a saved profile back.
- The Hugging Face Inference API and the network are not called by the code and are not modelled.
- API routes: a body that is valid JSON but of the wrong shape (a number where a record is expected, say) is not modelled. Such a body either fails inside `analyzeStudent` or flows through unchecked.
- Questionnaires: the free-text inputs (student name, grade, observations, file upload, diagnosis details, notes) only store strings and feed nothing the pages compute. They are not modelled.
- The progress bar's percentage text and the questionnaires' progress indicator are display only.
- Clipboard, share, navigation targets and the other pages of the application (dashboards, profile, converter page, lessons, achievements) are outside this model.
