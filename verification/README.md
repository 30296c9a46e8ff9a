# Gyan Guru game core in Dafny

This project models the core of Gyan Guru, a learning game for children. The
player picks a topic (math, quiz or guess), a difficulty and a mode (practice,
challenge or multiplayer). The store generates the questions and opens a
session. Each answer is checked, scored and recorded until the session ends.
When it ends, the learner's profile gains experience, levels and badges.

The model covers:

- the store's state and actions (`src/store/index.ts`): the session state
  machine, the profile mutations and the preference toggles;
- the question generators, including the two fixed banks;
- the answer checker;
- the progression and formatting helpers (`src/utils/helpers.ts`);
- the level badge classifiers;
- the speech language codes;
- the game page's question count and its tally of correct answers.

Everything is modelled over immutable datatypes. Methods are used for the
question generators, for `shuffleArray`, and for `startGame` and the game
page's start, which call the generators. The rest are pure functions. Outside
effects become parameters:

- `Math.random()` is a stream of naturals, `Rand = nat -> nat`, read from a
  cursor. A draw `Math.floor(Math.random() * k)` is `rand(pos) % k`.
- Every shuffle by `sort(() => 0.5 - Math.random())` becomes a selection
  driven by that stream, which can produce any permutation.
- The fresh ids of `generateUniqueId` are a function from slot to string.
- `new Date()` is a natural time stamp.
- The rejection loop of `generateOptions` takes a fuel bound.

Modules, one per file:

| file | module | models |
|---|---|---|
| wrappers.dfy | Wrappers | `Option` and `Result` |
| text.dfy | Text | number printing and parsing, `padStart`, ASCII lower case |
| random.dfy | Random | the random stream and the shuffle |
| types.dfy | Types | `Question`, `GameState`, `User`, `Badge` and the rest of the records |
| collections.dfy | Collections | distinctness and small sequence facts |
| answer.dfy | Answer | `checkAnswer` |
| banks.dfy | Banks | the quiz bank, the guess bank and the guess option lists |
| generator.dfy | Generator | `generateQuestions` and everything below it |
| helpers.dfy | Helpers | `src/utils/helpers.ts` |
| speech.dfy | Speech | `getLanguageCode` of `src/utils/speechUtils.ts` |
| level_badge.dfy | LevelBadge | `getVariant`, `getLabel` and the badge text |
| profile.dfy | Profile | the profile mutations |
| store.dfy | Store | the store's state and actions |
| game_page.dfy | GamePage | the question count and the correct-answer tally |
| level_progress.dfy | DoubleProgress | `levelProgress` in double-precision arithmetic |

## Model

| member | source | states |
|---|---|---|
| Answer.CheckAnswer | src/store/index.ts:653-665 | Two numbers compare numerically. Two strings compare after lower-casing both. Otherwise the two printed forms must be equal. |
| Answer.SameTextIsCorrect | src/store/index.ts:653-665 | An answer that prints exactly like the correct answer is always accepted. |
| Answer.NumberAgainstText | src/store/index.ts:664 | A text answer to a numeric question is accepted exactly when it is the number's decimal form. |
| Answer.ThirteenMatchesItsNumeral | src/store/index.ts:664 | The text "13" answers 13; "013" does not. |
| Answer.CaseDoesNotMatter | src/store/index.ts:660-662 | Two text answers equal up to case get the same verdict. |
| Answer.TigerInAnyCase | src/store/index.ts:660-662 | "Tiger", "TIGER" and "tiger" all answer "Tiger". |
| Answer.EmptySubmissionIsWrong | src/store/index.ts:653-665 | The empty answer (a timed-out question) is wrong unless the correct answer is empty. |
| Text.IntToStringRoundTrip | src/store/index.ts:664 | Parsing the printed form of an integer gives the integer back. |
| Text.IntToStringInjective | src/store/index.ts:664 | Two integers print alike exactly when they are equal. |
| Text.LowerIdempotent | src/store/index.ts:661 | Lower-casing twice is lower-casing once. |
| Random.Below | src/store/index.ts:273 | A draw below `k` is less than `k` and uses one number of the stream. |
| Random.PermuteIsPermutation | src/utils/helpers.ts:35-42 | The shuffle returns the same multiset of elements. |
| Random.PermuteZerosIsIdentity | src/store/index.ts:495 | A stream of zeros leaves the order unchanged, so the shuffle reaches the identity. |
| Collections.PermuteKeepsDistinct | src/store/index.ts:632 | Shuffling a list of distinct values keeps them distinct. |
| Banks.QuizBankWellFormed | src/store/index.ts:385-483 | Every quiz item's correct answer is among its options. |
| Banks.GuessBankWellFormed | src/store/index.ts:516-590 | Every guess item's category has an option list, and that list contains the item's answer. |
| Banks.CategoryListsWellFormed | src/store/index.ts:636-643 | Every category's option list has eight distinct names. |
| Banks.InCategories | src/store/index.ts:485-492 | The filter keeps exactly the items whose category is chosen, no more items than it was given, and no repeats when the bank has none. |
| Banks.InCategoriesKeepsOrder | src/store/index.ts:485-492 | The filter keeps bank order: filtering two runs one after the other gives the first run's kept items, then the second's. |
| Banks.InCategoriesCount | src/store/index.ts:485-492 | The filter keeps as many items as there are chosen categories among the items' categories. |
| Banks.QuizBankDistinct | src/store/index.ts:385-483 | No quiz item appears twice in the bank. |
| Banks.GuessBankDistinct | src/store/index.ts:516-590 | No guess item appears twice in the bank. |
| Banks.PoolsHoldFour | src/store/index.ts:484-496 | For every difficulty, the quiz bank has four items in that difficulty's categories, and so does the guess bank. |
| Generator.DrawOperands | src/store/index.ts:276-289 | Easy operands both lie in 1-10. Medium ones lie in 10-59 and 5-24, hard ones in 20-119 and 10-59. Two draws are used. |
| Generator.Subtract | src/store/index.ts:296-300 | The operands are swapped so that the larger one comes first, and the answer is their non-negative difference. |
| Generator.DivideAsWritten | src/store/index.ts:305-309 | As written: the dividend shown is `num1 * num2`, the divisor is `num2`, and the answer is `num2`. |
| Generator.DivideAsWrittenCounterexample | src/store/index.ts:305-309 | With operands 3 and 4 the question shows 12 ÷ 4 and expects 4. |
| Generator.DivideAsWrittenRightOnlyForSquares | src/store/index.ts:305-309 | The written answer is the true quotient exactly when the two operands are equal. |
| Generator.Divide | src/store/index.ts:305-309 | Corrected reading, kept beside the program's: the shown dividend is the answer times the shown divisor. The generator poses division as written. |
| Generator.ContinueSequence | src/store/index.ts:310-316 | Four terms from the difficulty's start with a fixed step, and the answer is the fifth term. |
| Generator.Solve | src/store/index.ts:291-363 | The integer operations give an answer; fractions, decimals and percentages give the floating-point error. Addition and multiplication show their operands. |
| Generator.SolveMeaning | src/store/index.ts:296-316 | Subtraction shows the larger operand first and answers the difference. Division shows the product over the second operand and answers that second operand, the divisor, as the program records it (see Findings). A sequence shows four terms one step apart, starting from the difficulty's start, and answers the fifth. |
| Generator.SolvedAnswerNonNegative | src/store/index.ts:291-316 | Every integer answer built from non-negative operands is non-negative. |
| Generator.EasyDrawsIntegral | src/store/index.ts:273 | Easy questions draw only from the first five operations, all of them integral. |
| Generator.CollectOptions | src/store/index.ts:625-630 | The loop ends with four distinct values: the answer first, then three non-negative values within the difficulty's range of it. Running out of fuel gives the fuel error. |
| Generator.GenerateOptions | src/store/index.ts:621-633 | Four distinct printed options. One is the answer, and every other is a distinct non-negative value near it. |
| Generator.RenderAllKeepsDistinct | src/store/index.ts:632 | Printing distinct integers gives distinct strings. |
| Generator.MathQuestion | src/store/index.ts:273-379 | One math question. Its topic, difficulty, points and time limit come from the difficulty. Its operation is one the difficulty may draw. Some operands in the difficulty's ranges give, through that operation, exactly its text and its non-negative answer; a division question answers the divisor, as the program records it. It offers four distinct options: the answer's numeral, and numerals of non-negative values within the difficulty's range of the answer. |
| Generator.GenerateMath | src/store/index.ts:267-382 | Exactly `count` questions, or none for a count that is not positive. Each is a math question of the difficulty with the id of its slot, and each is posed from in-range operands with its options around its answer, as for one question. |
| Generator.SliceEnd | src/store/index.ts:496 | `slice(0, count)` keeps `min(count, length)` items; a negative count drops that many from the end. |
| Generator.Select | src/store/index.ts:495-496 | The shuffled prefix has the length `slice` keeps, takes its items from the pool, and keeps them distinct. |
| Generator.QuizQuestionOf | src/store/index.ts:498-512 | A quiz question carries the item's question, options, answer and category, with the difficulty's points and time limit. |
| Generator.QuizQuestions | src/store/index.ts:498-512 | One well-formed quiz question per selected item, in order, each with the id of its slot. |
| Generator.GenerateQuizFrom | src/store/index.ts:484-513 | From a well-formed bank: as many questions as `slice` keeps of the filtered pool, all from the difficulty's categories. Each question carries every field of an item of the filtered pool. When the bank has no repeats, no item is used twice. |
| Generator.GenerateQuiz | src/store/index.ts:384-513 | From the fixed bank: four questions for any count of four or more, all in the difficulty's categories. Each carries an item of the difficulty's pool, and no item is used twice. |
| Generator.CategoryOptions | src/store/index.ts:645 | The option list of the category, falling back to monuments for a category without its own list; always eight distinct names. Inherited object keys are not modelled (see Left out). |
| Generator.CategoryOptionsFallback | src/store/index.ts:645 | A known category gets its own list, and any other category gets the monuments list. Inherited object keys are not modelled (see Left out). |
| Generator.PickOthers | src/store/index.ts:646-648 | Three distinct names from the category list, none equal to the answer. |
| Generator.GuessOptionsFrom | src/store/index.ts:646-650 | Four distinct names: the answer and three others from the category list. |
| Generator.GenerateGuessOptions | src/store/index.ts:635-651 | Four distinct options that contain the answer and otherwise come from the category's list. |
| Generator.GenerateGuessFrom | src/store/index.ts:591-619 | From a well-formed bank: as many guess questions as `slice` keeps of the filtered pool. Each carries the hint, answer, image and category of an item of the pool. Each offers four distinct options: its answer, and the others from its category's list. When the bank has no repeats, no item is used twice. |
| Generator.GenerateGuess | src/store/index.ts:515-619 | From the fixed bank: four questions for any count of four or more, all in the difficulty's categories. Each carries an item of the difficulty's pool and offers four distinct options, and no item is used twice. |
| Generator.TopicOf | src/store/index.ts:254-265 | "math", "quiz" and "guess" name the three topics, and no other text names any. |
| Generator.GenerateQuestions | src/store/index.ts:254-265 | Math gives `count` questions; quiz and guess give what their pools hold. Every question matches the topic and difficulty. An unknown topic gives none, and only math can fail. |
| Helpers.JsRemainder | src/utils/helpers.ts:9 | The truncating remainder: non-negative below the divisor for a non-negative dividend, and non-positive otherwise. |
| Helpers.FormatTime | src/utils/helpers.ts:7-11 | A non-negative time prints as two or more digits, a colon and two digits. |
| Helpers.FormatTimeRoundTrip | src/utils/helpers.ts:7-11 | Reading the minutes and seconds back gives seconds below 60 and `60 * minutes + seconds` equal to the input. |
| Helpers.FormatTimeFiveChars | src/utils/helpers.ts:7-11 | Below 6000 seconds the text is exactly five characters, "MM:SS". |
| Helpers.CalculateLevel | src/utils/helpers.ts:14-16 | The level is the hundred-point bracket the experience falls in, and at least 1 for non-negative experience. |
| Helpers.XpForNextLevel | src/utils/helpers.ts:19-21 | The experience that completes level `n` is exactly where level `n + 1` starts. |
| Helpers.LevelBracket | src/utils/helpers.ts:14-21 | The experience lies between the threshold of its own level and that of the next. |
| Helpers.CalculateLevelMonotone | src/utils/helpers.ts:14-16 | More experience never means a lower level. |
| Helpers.LevelProgress | src/utils/helpers.ts:24-32 | Corrected: the percentage is the experience earned within the level, `xp mod 100`, between 0 and 99. |
| Helpers.ShuffleArray | src/utils/helpers.ts:35-42 | Fisher-Yates returns the same multiset of elements and uses one draw per position after the first. |
| Helpers.TranslateText | src/utils/helpers.ts:94-179 | English and unknown languages leave the text as it is. Known languages translate the listed phrases and leave other text unchanged. |
| Helpers.TranslationTablesCoverPhrases | src/utils/helpers.ts:98-171 | Hindi, Marathi, Tamil and Bengali each translate the same set of phrases. |
| Helpers.TranslateOnlyChangesPhrases | src/utils/helpers.ts:172-178 | A text changes only if it is a listed phrase in a known language. |
| Helpers.GetLanguageCode | src/utils/helpers.ts:182-192 | The five languages map to their codes; any other name, inherited object keys aside, maps to "en-IN". |
| Helpers.LanguageCodeOfEachLanguage | src/utils/helpers.ts:182-192 | Only English maps to "en-IN", and different languages map to different codes. |
| Speech.GetLanguageCode | src/utils/speechUtils.ts:51-60 | Each of the five languages gets its fixed code, and any other name, inherited object keys aside, gets "en-IN". |
| Speech.CodeIsOneOfFive | src/utils/speechUtils.ts:51-60 | The code is always one of the five, for any name that is not an inherited object key. |
| Speech.AgreesWithHelpers | src/utils/speechUtils.ts:51-60 | It agrees with the helpers' `getLanguageCode` on every input. |
| LevelBadge.GetVariant | src/components/game/LevelBadge.tsx:16-20 | Primary below level 5, secondary from 5 to 9, accent from 10 on. |
| LevelBadge.GetLabel | src/components/game/LevelBadge.tsx:22-29 | Beginner below 3, Novice to 4, Intermediate to 7, Advanced to 11, Expert to 14, Master from 15 on. |
| LevelBadge.ClassifiersMonotone | src/components/game/LevelBadge.tsx:16-29 | A higher level never gets a lower label or variant. |
| LevelBadge.Render | src/components/game/LevelBadge.tsx:31-52 | The badge shows "Level n • label" in the level's variant, animated or not as asked. |
| LevelBadge.RenderSameInBothBranches | src/components/game/LevelBadge.tsx:31-52 | The animated and the static badge show the same text and variant. |
| Profile.NewUser | src/store/index.ts:41-58 | The new profile has no experience, level 1, no badges, English with voice and sound on, and zero counters. It is consistent. |
| Profile.Merge | src/store/index.ts:63-68 | Each field the update sets replaces the profile's, and every other field stays. |
| Profile.MergeLaws | src/store/index.ts:63-68 | The empty update changes nothing, and the same update applied twice equals applying it once. |
| Profile.FindBadge | src/store/index.ts:201 | The position of the first badge with the id, or none when no badge has it. |
| Profile.UnlockAll | src/store/index.ts:204-208 | Badges with the id become unlocked at the given time; the others are untouched. |
| Profile.AwardBadgeTo | src/store/index.ts:197-223 | A locked badge is unlocked, a missing badge is appended, and an unlocked badge changes nothing. Afterwards the badge exists unlocked. Other badges and fields are unchanged, and unique ids stay unique. |
| Profile.AwardBadgeIdempotent | src/store/index.ts:197-223 | Awarding the same badge again, at any later time, changes nothing. |
| Profile.AddXpTo | src/store/index.ts:225-239 | Experience grows by the amount and the level is recomputed from it. A rise in level awards that level's badge; otherwise badges are unchanged. Consistency is kept. |
| Profile.LevelUpUnlocksBadge | src/store/index.ts:236-238 | After a level-up the badge "level-n" of the new level exists and is unlocked. |
| Profile.NoLevelUpNoBadge | src/store/index.ts:229-238 | Experience that stays inside the current level keeps the level and the badges. |
| Profile.BumpProgress | src/store/index.ts:126-132 | The counter of the question's topic rises by one, and the other two stay. |
| Profile.Reward | src/store/index.ts:125-136 | At the end of a session the topic's counter rises by one and the experience by the score. The level matches the experience, and identity and preferences stay. |
| Store.StartingLives | src/store/index.ts:76 | Three lives in challenge mode; unbounded in the other modes. |
| Store.NewSession | src/store/index.ts:73-81 | Index 0, score 0, the mode's lives, one empty slot per question, and not complete. The session invariant holds. |
| Store.Multiplier | src/store/index.ts:102-104 | Easy counts once, medium twice, hard three times. |
| Store.SetSlot | src/store/index.ts:94-95 | The answered slot holds the answer, and the other slots are kept. |
| Store.Step | src/store/index.ts:90-121 | A correct answer adds points times the multiplier; a wrong one costs a life in challenge mode only. The session completes exactly on the last question or when lives run out. Otherwise the index moves on by one. |
| Store.StepKeepsInv | src/store/index.ts:90-121 | An answer keeps the session invariant (one slot per question, index in range, score ≥ 0, challenge lives between 0 and 3, a running session not out of lives, answered slots before the index and empty ones after) and never lowers the score. |
| Store.PlayKeepsInv | src/store/index.ts:86-121 | Any run of answers keeps the invariant (including challenge lives never below 0) and the questions, and never lowers the score. |
| Store.PlayCompletes | src/store/index.ts:111-120 | A session is complete after as many answers as it has questions left, whatever the answers are. |
| Store.PracticeEndsOnLastQuestion | src/store/index.ts:107-120 | Outside challenge mode a session ends only on its last question. |
| Store.ChallengeEndsAfterThreeMistakes | src/store/index.ts:107-120 | In challenge mode, as many wrong answers as lives remain end the session; when enough questions remain, it ends with zero lives. |
| Store.InitializeUser | src/store/index.ts:40-61 | Installs the new profile and marks the learner signed in; nothing else changes. |
| Store.UpdateUser | src/store/index.ts:63-68 | Merges the update into the profile, or does nothing without one. |
| Store.StartGame | src/store/index.ts:70-84 | Opens a fresh session over the generated questions: the right length per topic, matching topic and difficulty. Nothing else in the store changes. |
| Store.AnswerQuestion | src/store/index.ts:86-137 | Without a running session nothing changes, and an index past the questions fails. Otherwise the session takes one step, and the step that completes it rewards the profile. |
| Store.FinishingRewardsScore | src/store/index.ts:111-136 | Answering the last question completes the session and adds its score to the profile's experience, with the level recomputed. |
| Store.CompleteGame | src/store/index.ts:139-149 | Marks the session complete, leaves the profile alone, and keeps the invariant. |
| Store.CompletedIgnoresAnswers | src/store/index.ts:86-88 | After completion, answers change nothing. |
| Store.ResetGame | src/store/index.ts:151-153 | Drops the session and nothing else. |
| Store.ToggleSound | src/store/index.ts:155-167 | Flips the sound flag and copies the new value into the profile's preferences. |
| Store.ToggleVoice | src/store/index.ts:169-181 | Flips the voice flag and copies the new value into the profile's preferences. |
| Store.ToggleTwice | src/store/index.ts:155-181 | Toggling twice restores the store exactly when the profile already agreed with the flag. |
| Store.ChangeLanguage | src/store/index.ts:183-195 | Sets the store's language and the profile's preferred language. |
| Store.ChangeLanguageLastWins | src/store/index.ts:183-195 | Two changes in a row equal the second alone. |
| Store.AwardBadge | src/store/index.ts:197-223 | Awards the badge on the profile, or does nothing without one. Consistency is kept. |
| Store.AddXp | src/store/index.ts:225-239 | Adds experience on the profile, or does nothing without one. Consistency is kept. |
| Store.Save | src/store/index.ts:243-248 | The saved part is the profile, the language and the two flags. |
| Store.Restore | src/store/index.ts:241-249 | A restored store has no session, is not loading and is not signed in. |
| Store.SaveRestoreRoundTrip | src/store/index.ts:241-249 | Saving a restored store gives back what was saved. Restoring a saved store loses only the session and the two transient flags. |
| GamePage.StartFromPage | src/pages/GamePage.tsx:47 | The page asks for ten questions. Math gets ten, quiz and guess get the four their pools hold, and an unknown topic gets none. |
| GamePage.CountSlotsUpdate | src/pages/GamePage.tsx:202-205 | Replacing one slot changes the count by the difference between what the old and new slots contribute. |
| GamePage.CountSlotsMonotone | src/pages/GamePage.tsx:202-205 | A rule that accepts more slots counts at least as many. |
| GamePage.CorrectTallyAsWritten | src/pages/GamePage.tsx:202-205 | As written: counts slots whose printed form is exactly the printed correct answer, never more than there are slots. |
| GamePage.CorrectTally | src/pages/GamePage.tsx:202-205 | Corrected: counts slots holding an answer the store's check accepts, never more than there are slots. |
| GamePage.UnansweredNotTallied | src/pages/GamePage.tsx:202-205 | A session with no answers tallies zero. |
| GamePage.AsWrittenNeverOvercounts | src/pages/GamePage.tsx:202-205 | Over answered slots, the page's count never exceeds the answers the store accepted. |
| GamePage.StepScoreIsTally | src/store/index.ts:97-106 | With uniform points, one answer keeps the score equal to the points per correct answer times the corrected tally. |
| GamePage.PlayScoreIsTally | src/store/index.ts:86-121 | Any run of answers keeps that relation and the session invariant. |
| GamePage.FinalScoreCountsCorrectAnswers | src/pages/GamePage.tsx:202-205 | Generated questions of one difficulty end with the difficulty's points, times its multiplier, for every answer the corrected tally counts. |
| GamePage.LowerCaseAnswerNotTallied | src/pages/GamePage.tsx:204 | "tiger" for "Tiger" scores five points, but the page's tally counts no correct answer. |
| DoubleProgress.Binade | src/utils/helpers.ts:31 | The power of two at the bottom of the value's binade. |
| DoubleProgress.RoundToDouble | src/utils/helpers.ts:31 | Rounding to a double gives a whole multiple of the spacing, at most half a spacing away, and so within 2^-53 of the value relative to it. |
| DoubleProgress.LevelProgressAsWritten | src/utils/helpers.ts:24-32 | As written, in doubles: the exact percentage or one less. |
| DoubleProgress.TwentyNineShowsAsTwentyEight | src/utils/helpers.ts:31 | At 29 points into a level the doubles give 28, where the exact value is 29. |

## Left out

- Rendering, animation, routing and the other pages and components are left out, because they hold no state logic.
- The per-component feedback checks in the question components are left out, because `checkAnswer` is the check that scores.
- Timers and sound are left out, because they are scheduling and browser calls. A time-up is an ordinary answer (the empty string).
- `speak`, `startSpeechRecognition` and `playSound` are left out, because they call browser APIs.
- Writing the saved part to storage is I/O and is left out. Only which fields are saved is modelled.
- `generateUniqueId` and `new Date()` are not computed: ids and time stamps are parameters.
- Generator.Solve: fractions, decimals and percentages compute non-integral answers with floating point. These operations give the floating-point error instead of an answer.
- Generator.CollectOptions: the rejection loop of `generateOptions` takes a fuel bound. With the fuel spent it reports an error, where the program would keep drawing.
- Generator.MathQuestion: every answer is an integer, so `correctAnswer` is modelled as an integer. Numbers print as integers.
- Banks.QuizBankWellFormed: an image is kept as its photo name. The image host and query string that every image address shares are dropped.
- Text.Lower: `toLowerCase` is modelled on ASCII letters only. Other characters are left as they are.
- Helpers.TranslateText: lookups do not model JavaScript's inherited object keys such as `constructor`.
- Helpers.GetLanguageCode: the lookup `languageCodes[language] || 'en-IN'` also finds inherited keys such as `constructor`, which return an `Object.prototype` member rather than a code. Such keys are not modelled, because every caller passes one of the five language names.
- Speech.GetLanguageCode: the same inherited keys are not modelled, for the same reason.
- Speech.CodeIsOneOfFive: holds only for names that are not inherited object keys. For `toString` the program returns a function.
- Generator.CategoryOptions: `optionsByCategory[category]` also finds inherited keys. For `constructor`, `.filter` then throws a TypeError. Such keys are not modelled, because every category comes from the fixed guess bank.
- Generator.CategoryOptionsFallback: the monuments fallback is stated for every other string; an inherited key makes the program throw instead, as under Generator.CategoryOptions.
- Store.SetSlot: an out-of-range index pads with empty slots. JavaScript leaves holes instead, but the store's invariant keeps every index in range.
- Store.AnswerQuestion: the exception raised by reading past the last question is an error result, and the state is left unchanged.
- GamePage.CorrectTally: the tally requires no more answer slots than questions. Beyond that the page would throw, and the store's invariant rules it out.
- DoubleProgress.LevelProgressAsWritten: only the division and multiplication by 100 are rounded. The integer steps before them are exact in doubles for experience below 2^53.
- The `GameComplete` accuracy rounding and the `ProgressBar` clamp are left out, because they are display-only floating-point arithmetic.
- The multiplayer mode is modelled, but it behaves like practice.

## Findings

| source | as written | input that shows it | evidently intended | confidence | as-written member | corrected member |
|---|---|---|---|---|---|---|
| src/store/index.ts:305-309 | A division question shows `num1*num2 ÷ num2` but expects `num2`. | Operands 3 and 4: the question is 12 ÷ 4 and the expected answer is 4. | The answer is the quotient, `num1`. | high, not executed | Generator.DivideAsWrittenRightOnlyForSquares | Generator.Divide |
| src/utils/helpers.ts:31 | `Math.floor((x / 100) * 100)` in doubles can fall one short. | xp = 29: 0.29 × 100 rounds to 28.999999999999996, which floors to 28. | The whole percentage `xp mod 100`, here 29. | high, not executed | DoubleProgress.TwentyNineShowsAsTwentyEight | Helpers.LevelProgress |
| src/pages/GamePage.tsx:202-205 | The tally compares `String(answer)` with the correct answer exactly, case included, while `checkAnswer` ignores case. The two disagree only on a guess question that has no options, so that the learner types the answer. The generators always attach options, and src/components/game/GuessQuestion.tsx:129 shows the text box only without them. So the divergence is latent in the shipped app. | A guess question without options whose answer is "Tiger", answered "tiger": it scores five points but is not counted. | Count the answers `checkAnswer` accepted. | low (latent; not reachable with generated questions), not executed | GamePage.LowerCaseAnswerNotTallied | GamePage.FinalScoreCountsCorrectAnswers |
