# Cantonese listening quiz: session model

This project models the game logic of a two-choice listening quiz for
children learning Cantonese. The game speaks a word. It shows two written
words, and the player picks the one that was spoken. A session lasts ten
rounds. The repository holds the game twice, as two variants of one React
component:

- `src/App.jsx` is modelled by module `AppGame`. `generateQuestion` returns a
  question value. The handlers clear the answer state themselves. The
  selected option is the double-answer guard. `AppGame` works over any
  catalog it is given. The source's 183-word `dictionary` is transcribed in
  `AppWords`, and `AppWords.Mount` creates the component over it.
- `index.jsx` is modelled by module `IndexGame`, with its 61-word catalog in
  `IndexWords`. `generateQuestion` clears the answer state and installs the
  target and options. `hasAnswered` is the guard. `shuffleArray` orders the
  options.

Module `Quiz` holds what both variants share:
- the entry type `{ word, jyutping }`
- the phases `start`, `playing` and `finished`
- the finish tiers and option marks
- the model of `Math.random()`
- the distractor loop's stopping point
- the count of scoring answers

Module `Variants` compares the two variants.

How the model represents the source:

- **Component state.** Each component's state is a class, `AppGame.Game` or
  `IndexGame.Game`. It has one field per `useState` and one method per
  handler. `Valid()` is the session invariant: 1 ≤ round ≤ 10, and the score
  is the number of scoring answers, so it never exceeds the round. It also
  says that at most one answer is accepted per round, and that the phase
  matches the answer state.
- **Advance callback.** The 2000 ms callback scheduled by an answer is the
  method `Advance`. The field `advanceScheduled` records that an answer
  scheduled it and it has not run yet.
- **Entry references.** A reference to a catalog entry is its catalog index.
  So `===` on entries is index equality, and `.word ===` compares
  `catalog[i].word` (`WordDatabase[i].word` in `index.jsx`).
- **Correctness.** Both variants judge an answer by comparing display text,
  as their code does. Comparing catalog indices would be the safer rule,
  since two entries can show the same text. In `index.jsx` the word 水 is
  listed twice, at index 15 and index 42. `IndexGame.WaterPairAlwaysCorrect` shows that a
  question pairing those two entries scores whichever option is picked.
- **Randomness.** `Math.random()` is a real in [0, 1) supplied by the caller.
  `Math.floor(Math.random() * n)` is `Quiz.RandomIndex`. The distractor
  do-while loop reads a sequence of draws until one lands on another entry.
  `shuffleArray` is a copy rearranged by a supplied sequence of exchanges.
  Nothing is assumed about distributions. The product `x * n` is exact real
  arithmetic, not a rounded double. For a given draw the index can therefore
  differ from the one JavaScript computes, though it is always in `[0, n)`.

## Model

| member | source | states |
|---|---|---|
| `Quiz.RandomIndex` | src/App.jsx:225 | `Math.floor(Math.random() * n)` is an index in `[0, n)` for every draw in [0, 1) |
| `Quiz.DistractorIndex` | src/App.jsx:228-231 | the do-while loop stops only on an index that differs from the target and lies in `[0, n)`; it never stops exactly when every draw lands on the target |
| `Quiz.DrawDistractor` | src/App.jsx:228-231 | the do-while loop (the same in index.jsx:111-114) returns exactly the index `DistractorIndex` describes: the first draw off the target |
| `Quiz.DistractorIndexIsFirstDiffering` | src/App.jsx:229-231 | the loop takes the first draw that lands off the target, after redrawing every one that landed on it |
| `Quiz.OneEntryNeverExits` | src/App.jsx:229-231 | with a one-entry catalog no draw lands off the target, so the loop never exits |
| `Quiz.CountTrueAppend` | src/App.jsx:263-264 | recording one more answer raises the count of scoring answers by one exactly when that answer scored |
| `Quiz.CountTrueBounded` | src/App.jsx:264-266 | the number of scoring answers is at most the number of answers, and equals it exactly when every answer scored |
| `AppGame.QuestionFor` | src/App.jsx:224-244 | the question holds two distinct catalog entries, one of them the drawn target; the target comes first exactly when the order draw is below 0.5 |
| `AppGame.GenerateQuestion` | src/App.jsx:224-244 | the target draw, the distractor loop and the option ordering return exactly the question `QuestionFor` describes |
| `AppGame.OptionMark` | src/App.jsx:356-366 | every option is plain before an answer; afterwards the target (by identity) is marked correct, the selected non-target wrong, any other dimmed |
| `AppGame.MarksAfterAnswer` | src/App.jsx:356-366 | after an answer exactly the target option is marked correct; the other option is marked wrong if it was chosen and dimmed otherwise |
| `AppGame.FinishTier` | src/App.jsx:405-407 | top message iff score is 10, middle iff not 10 and at least half of 10, encouragement iff below half |
| `AppGame.FinishTierMonotone` | src/App.jsx:405-407 | a higher score never gets a lower message |
| `AppGame.IsCorrectAnswer` | src/App.jsx:261 | an answer counts when the chosen option's text equals the target's; choosing the target itself always counts |
| `AppGame.FinishMessageShown` | src/App.jsx:405-407 | the finish screen shows "嘩！你係粵語小天才！🏆" exactly for a score of 10, "做得好！繼續加油！🌟" exactly for a score under 10 and at least half of 10, and "唔緊要，下次會更好！💪" exactly below half |
| `AppWords.DictionarySize` | src/App.jsx:5-189 | the transcribed `dictionary` has 183 entries |
| `AppWords.Mount` | src/App.jsx:193-199 | the mounted component works over the 183 entries of `dictionary` and starts valid, on the start screen, with score 0 and round 1 |
| `AppGame.Game.constructor` | src/App.jsx:194-199 | the initial state over the given catalog: start screen, score 0, round 1, no question, no feedback, no selection |
| `AppGame.Game.ScoreBounded` | src/App.jsx:274-285 | in every valid state score ≤ round ≤ 10, and score < round while the round is unanswered |
| `AppGame.Game.StartGame` | src/App.jsx:246-256 | score 0, round 1, phase playing, feedback and selection cleared, and the freshly generated question installed |
| `AppGame.Game.RestartGame` | src/App.jsx:288-290 | exactly the effect of `StartGame` |
| `AppGame.Game.HandleOptionClick` | src/App.jsx:258-286 | once an option is selected a click changes nothing; otherwise the selection is recorded, the score rises by exactly 1 with feedback correct iff the option's text equals the target's, else it is unchanged with feedback wrong, the matching utterance is returned and the advance is scheduled |
| `AppGame.Game.Advance` | src/App.jsx:274-285 | at round ≥ 10 the phase becomes finished and nothing else changes; otherwise the round rises by 1, score is kept, feedback and selection are cleared and a new question is installed; the invariant (1 ≤ round ≤ 10, score ≤ round) is kept |
| `AppGame.Game.ReplayTarget` | src/App.jsx:343 | the speaker button speaks the target's text |
| `AppGame.Game.FinishedSession` | src/App.jsx:274-276 | on the finished screen all 10 rounds were answered; the score is the number that scored, and is 10 iff every answer scored |
| `AppGame.PlayAllCorrect` | src/App.jsx:246-286 | over any catalog, start and then ten rounds of clicking the target and advancing end finished, with score 10, tier top and the message "嘩！你係粵語小天才！🏆" |
| `IndexWords.WaterListedTwice` | index.jsx:18-35 | the catalog has 61 entries, and entries 15 and 42 both show 水 |
| `IndexGame.ShuffleArray` | index.jsx:70-72 | the result is a permutation of the input (same length, same multiset); the input is a value and stays unchanged |
| `IndexGame.ShufflePair` | index.jsx:118 | shuffling `[target, distractor]` gives that pair in one order or the other |
| `IndexGame.ShufflePairBothOrders` | index.jsx:70-72 | both orders of a pair are reachable |
| `IndexGame.TargetFor` | index.jsx:106-107 | the drawn target is an index of `WORD_DATABASE` |
| `IndexGame.DistractorFor` | index.jsx:110-115 | the distractor is a catalog index different from the target's |
| `IndexGame.OptionsFor` | index.jsx:105-119 | the installed options are `[target, distractor]` or `[distractor, target]` |
| `IndexGame.IsCorrectAnswer` | index.jsx:135 | an answer counts when the selected entry's text equals the target's; picking the target itself always counts |
| `IndexGame.OptionMark` | index.jsx:285-298 | plain before an answer; afterwards an option showing the target's text is marked correct, one showing the selected text (and not the target's) wrong, any other dimmed |
| `IndexGame.WaterPairAlwaysCorrect` | index.jsx:135 | for a question pairing entries 15 and 42 (both 水), any pick counts as correct and both options are marked correct |
| `IndexGame.FinishTier` | index.jsx:197-209 | top message iff score is 10, middle iff not 10 and at least 6, bottom iff below 6 |
| `IndexGame.FinishMessageShown` | index.jsx:199-209 | the finish screen shows "粵語小天才！太厲害了！" exactly for a score of 10, "做得很好！繼續加油！" exactly for a score under 10 and at least 6, and "再玩一次，你會更棒！" exactly below 6 |
| `IndexGame.Game.constructor` | index.jsx:78-89 | the initial state: start screen, round 1, score 0, no target, no options, not answered |
| `IndexGame.Game.ScoreBounded` | index.jsx:147-153 | in every valid state score ≤ round ≤ 10, and score < round while the round is unanswered |
| `IndexGame.Game.GenerateQuestion` | index.jsx:100-126 | clears `hasAnswered`, `isCorrect` and `selectedOption`, sets the target to the drawn entry, the distractor to the loop's first index off the target, and the options to the shuffled pair; nothing else changes |
| `IndexGame.Game.StartGame` | index.jsx:92-97 | score 0, round 1, phase playing, then a generated question with the answer state cleared |
| `IndexGame.Game.HandleAnswer` | index.jsx:129-155 | a no-op once answered; otherwise records the answer and selection, sets `isCorrect` to text equality with the target, raises the score by exactly 1 iff correct and schedules the advance |
| `IndexGame.Game.Advance` | index.jsx:147-154 | at round ≥ 10 the phase becomes finished; otherwise the round rises by 1 and a new question is generated with the answer state cleared; the invariant (1 ≤ round ≤ 10, score ≤ round) is kept |
| `IndexGame.Game.HandleReplayAudio` | index.jsx:158-162 | speaks the target's text iff there is a target, and changes no state |
| `IndexGame.Game.FinishedSession` | index.jsx:147-150 | on the finished screen all 10 rounds were answered; the score is the number that scored, and is 10 iff every answer scored |
| `IndexGame.PlayAllCorrect` | index.jsx:92-155 | start, then ten rounds of picking the target and advancing, ends finished with score 10, tier top and the message "粵語小天才！太厲害了！" |
| `Variants.FinishTiersDifferOnlyAtFive` | index.jsx:201 | with 10 rounds in both, the two variants give the same finish tier for every score except 5 (middle in src/App.jsx, bottom in index.jsx) |

## Left out

- Speech synthesis is not modelled. This covers `speak`, `speakCantonese`, the voice lookup, `speechSynthesis.cancel`, the `alert` fallback and the voice preload effect. It is a browser API whose effects cannot be observed. `HandleOptionClick`, `ReplayTarget` and `HandleReplayAudio` return the text they would speak.
- The delayed speaking of a new target is not modelled. `src/App.jsx` waits 5000 ms after start and after an advance; `generateQuestion` in `index.jsx` waits 500 ms. The target that would be spoken is the one installed by the question.
- Timer durations are left out. The 2000 ms advance is the explicit step `Advance`, which only an accepted answer schedules.
- Timer cancellation is not modelled, because the source never cancels a timer. `StartGame` and `RestartGame` require a phase other than playing. Their buttons are drawn only on the start and finished screens, where no advance is pending. So restarting in the middle of a round is not modelled.
- React semantics are left out: batched updates, stale closures and double-click races. Each handler runs on the current state, one at a time.
- The distributions of `Math.random()` are left out, including the bias of sorting with a random comparator. The randomness is supplied by the caller.
- `AppGame.GenerateQuestion`, `IndexGame.Game.GenerateQuestion`: each requires the supplied draws to contain one that lands off the target. With finitely many draws this is the only way the loop ends. The never-ending loop of a one-entry catalog is stated by `Quiz.OneEntryNeverExits` instead.
- `IndexGame.ShuffleArray` does not model the engine's sort algorithm. Its exchanges are given as a parameter.
- `AppGame.Game.HandleOptionClick` requires a current question even when the click would be ignored. This equals the source's condition in every valid state, because a selection exists only while a question does.
- Rendering is left out: JSX, class names, icons, the feedback banners and the progress-bar width. The option marks and the finish messages are modelled.
- The 183 words of `src/App.jsx` are transcribed, but the model does not prove they are pairwise distinct. So it does not prove that text and identity comparison agree in that variant.
