# Joke Danger Meter — quiz controller model

The Joke Danger Meter is a single-screen quiz: six fixed yes/no questions about a
joke, a live "danger level" meter computed from the number of "yes" answers, and a
"Check Result" button that freezes one of four verdict messages into a popup until
the popup is dismissed. All of this lives in one React component (`src/App.tsx`);
this project models its state controller in Dafny.

- `quiz_logic.dfy`, module `QuizLogic` — the pure part: the `Question` record
  (text, `isYes`), the `Message` and `Color` bands, the six initial questions, the
  filter-and-count `totalYes` (`YesOnly`, `TotalYes`), the percentage `dangerLevel`
  (`DangerLevel`, exact over `real`), the verdict ladder of `checkResult`
  (`Classify`), `getMeterColor` (`MeterColor`), and the list update that
  `handleAnswer` performs (`SetAnswer`), with the lemmas relating them.
- `quiz_state.dfy`, module `QuizState` — the component's mutable state as a class
  `Quiz`: the question array, the `showPopup` flag and the frozen `result`, with the
  three handlers `HandleAnswer`, `CheckResult` and `Dismiss`, each specified by the
  functions of `QuizLogic`. `CheckThenEdit` is a client scenario showing that a
  shown message stays frozen while answers change.

The count is given an independent account (`YesIndices`, the set of positions
answered "yes") and the meter colour is proved to agree with the verdict band:
green with "safe", yellow with "caution", red with "highly offensive" or "jail".

## Model

| member | source | states |
|---|---|---|
| `QuizLogic.InitialState` | src/App.tsx:11-24 | at mount there are exactly six questions, none answered "yes", so the count and danger level are 0 and the meter is green |
| `QuizState.Quiz.constructor` | src/App.tsx:11-21 | the mounted state holds the six initial questions, the popup hidden and an empty result |
| `QuizLogic.MessageText` | src/App.tsx:33-41 | the result string is empty exactly for the not-yet-checked state; each band has its own message string |
| `QuizLogic.MessageTextInjective` | src/App.tsx:35-41 | the four verdict strings are pairwise distinct, so storing the band instead of the string loses nothing |
| `QuizLogic.YesOnly` | src/App.tsx:23 | a question appears in the filtered list if and only if it is in the list and answered "yes"; the filtered list is never longer than the list |
| `QuizLogic.YesOnlyKeepsEveryCopy` | src/App.tsx:23 | the filter keeps every copy of a question answered "yes" and no copy of any other, so equal records are not merged |
| `QuizLogic.TotalYes` | src/App.tsx:23 | the count of "yes" answers never exceeds the number of questions |
| `QuizState.Quiz.TotalYes` | src/App.tsx:23 | the component's current count is at most the number of questions and equals the number of positions answered "yes" |
| `QuizLogic.TotalYesCountsYesIndices` | src/App.tsx:23 | the filter-and-length count equals the number of positions whose answer is "yes" |
| `QuizLogic.TotalYesZero` | src/App.tsx:23 | the count is 0 if and only if no question is answered "yes" |
| `QuizLogic.TotalYesAll` | src/App.tsx:23 | the count equals the list length if and only if every question is answered "yes" |
| `QuizLogic.DangerLevel` | src/App.tsx:24 | the danger level always lies between 0 and 100 |
| `QuizLogic.DangerLevelExtremes` | src/App.tsx:23-24 | the level is 0 if and only if no answer is "yes", and 100 if and only if every answer is |
| `QuizState.Quiz.DangerLevel` | src/App.tsx:24 | the level of the component's current answers lies between 0 and 100 |
| `QuizLogic.SetAnswer` | src/App.tsx:26-30 | after answering question i, its answer is the new one, its text is kept, every other question is unchanged and the length is unchanged |
| `QuizLogic.SetAnswerIdempotent` | src/App.tsx:26-30 | giving the same answer to the same question twice equals giving it once |
| `QuizLogic.SetAnswerUndo` | src/App.tsx:23-30 | answering a question and then restoring its previous answer restores the list, the count and the danger level |
| `QuizLogic.TotalYesAfterSetAnswer` | src/App.tsx:23-30 | an answer moves the count by at most one: +1 exactly when "no" becomes "yes", -1 exactly when "yes" becomes "no", otherwise unchanged |
| `QuizState.Quiz.HandleAnswer` | src/App.tsx:26-30 | the question array becomes the one-answer update of the old one, the six texts are kept, the count moves as above, and `result` and `showPopup` are untouched |
| `QuizLogic.Classify` | src/App.tsx:32-42 | every count is given one of the four verdicts, never the empty result |
| `QuizLogic.ClassifyBands` | src/App.tsx:34-42 | over counts 0..6: jail exactly for 6, highly offensive exactly for 4-5, caution exactly for 2-3, safe exactly for 0-1 |
| `QuizLogic.ClassifyMonotone` | src/App.tsx:34-42 | more "yes" answers never give a milder verdict |
| `QuizState.Quiz.CheckResult` | src/App.tsx:32-45 | the stored result becomes the verdict for the current count, the popup is shown, and no answer changes |
| `QuizState.Quiz.Dismiss` | src/App.tsx:155 | the popup is hidden; the stored result and every answer are unchanged |
| `QuizLogic.MeterColor` | src/App.tsx:47-51 | green if and only if the level is at most 33, yellow if and only if it is above 33 and at most 66, red if and only if it is above 66 |
| `QuizState.Quiz.MeterColor` | src/App.tsx:47-51 | the component's meter is green exactly for counts 0-1, yellow exactly for 2-3, red exactly for 4-6 |
| `QuizLogic.MeterColorBoundaries` | src/App.tsx:47-51 | each upper bound is inclusive: 33 is green, 34 and 66 are yellow, 67 is red |
| `QuizLogic.MeterColorMonotone` | src/App.tsx:47-51 | a higher level never gives a milder colour |
| `QuizLogic.MeterColorByCount` | src/App.tsx:23-51 | with six questions the meter is green exactly for counts 0-1, yellow exactly for 2-3, red exactly for 4-6 |
| `QuizLogic.MeterAgreesWithMessage` | src/App.tsx:23-51 | the meter colour always matches the verdict band a check would show: green-safe, yellow-caution, red-offensive or jail |
| `QuizState.CheckThenEdit` | src/App.tsx:26-45 | from four "yes" answers a check shows "highly offensive" at level 200/3 on a red meter, and that message survives a later answer and the dismissal, with the six question texts kept throughout |

## Left out

- The JSX tree, Tailwind classes, CSS transitions and meter geometry (src/App.tsx:53-171): presentation with no stateable behaviour.
- `Helmet` page metadata and the `lucide-react` icons: calls into libraries outside this model.
- React's `useState` re-rendering: each handler is modelled as a direct state change. The shallow copy at src/App.tsx:27-28, which mutates the shared question object in place, is modelled simply as "the answer at index i becomes the new value".
- `Math.round(dangerLevel)` in the displayed percentage: display rounding only. The level itself is kept exact as a `real` rather than an IEEE double; with six questions no level lies near a threshold (33.3… and 66.6… against 33 and 66), so the comparisons agree with the double arithmetic.
- `QuizLogic.DangerLevel` requires a non-empty list: with zero questions JavaScript would produce NaN, but the list is fixed at six.
- `QuizState.Quiz.HandleAnswer` requires an index within the list: the buttons pass only the index of the row they render, and an out-of-range index would throw in JavaScript rather than be handled.
- `QuizLogic.Classify` keeps the literal `6` of the jail test rather than the list length, as the code does; counts above 6 cannot occur.
