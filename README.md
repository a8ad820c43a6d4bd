# Crazy Colors: a verified model of the game controller

Crazy Colors is a Stroop-effect colour quiz. A colour name is written in one palette
colour on a background of another, and the player names either the colour of the
letters or the colour of the background. The game cycles through three screens
(intro, a selection animation that settles on the word to show, and the quiz) under
three overlays (settings, exit, answer verdict), and keeps running statistics.

This project models the controller of `src/components/CrazyColorsGame.jsx` in Dafny:

- `Quiz.dfy` (module `Quiz`): the palette of nine entries, the question, the
  rejection-sampling loop that draws a background colour different from the letters
  colour, and the rule an answer is judged by.
- `StatsTracker.dfy` (module `StatsTracker`): the five-field statistics record,
  `Math.round` of the average time per answer in integer arithmetic, the one-second
  tick, recording a resolved answer, and a replay lemma over any history of both.
- `TimeDisplay.dfy` (module `TimeDisplay`): the `m:ss` play-time text and a proof
  that it reads back to the number of seconds.
- `Game.dfy` (module `CrazyColors`): class `Game` with the component's state as
  fields and one method per button, key listener and timer callback. `Valid()` is
  the class invariant: every index is in the palette, the letters and background
  colours differ, the option is 0 or 1, `questionsAll == answersCorrect +
  answersWrong`, and the average time per answer is 0 while no question has been
  asked. Each method states its whole new state as the old state
  (`State()`) with the fields it changes replaced.

Randomness is passed in as parameters: the index drawn by a selection tick, the
letters draw and the sequence of background draws of question generation, and the
coin of random mode. Timers become event methods. A method for a timer whose
callback is cancelled when its guarding condition ends does something only under
that condition: the selection tick and lock need the selection screen and no lock;
the stats tick needs the main screen and no answer overlay. The pause timeout after
the lock is never cancelled in the source, so its method acts whatever the state is.
Entering the main screen triggers question generation in the source. The model folds
this into the pause-end method, which generates a question exactly when the screen
was not already the main screen. It uses the selection index current at that moment.

Behaviour of the code that the model keeps on purpose:

- The average time per answer is computed from the seconds counter before the tick
  adds its second. It is also not recomputed when an answer is recorded. So it is
  not always `round(timeSpent / questionsAll)` of the current record.
- Only the answer overlay's Continue button records the answer in the statistics.
  Dismissing the overlay by keyboard records nothing.
- The pause timeout is not cancelled when the selection screen is left, and it sets
  the main screen unconditionally.
- An out-of-range answer index is not rejected by the code. The buttons only produce
  0..8, so this is a precondition of `AnswerChosen`.
- Nothing sets `regim` to 1, so random mode is unreachable in the code. The model
  keeps it as a field and judges by the coin whenever it is 1.
- Restarting leaves `isSelectionFixed`, `showAnswer` and `showSettings` as they were.

## Model

| member | source | states |
|---|---|---|
| CrazyColors.Game.constructor | src/components/CrazyColorsGame.jsx:75-102 | The initial state: intro screen, zero statistics, regim 0 and option 0, no overlays, selection 0 unlocked, question (0, 1, 0); the class invariant (palette indices, distinct colours, option 0 or 1, balance, zero average before any question) holds |
| CrazyColors.Game.StartPressed | src/components/CrazyColorsGame.jsx:228-229 | START sets the selection screen and changes nothing else |
| CrazyColors.Game.SettingsPressed | src/components/CrazyColorsGame.jsx:235-236 | SETTINGS shows the settings overlay and changes nothing else |
| CrazyColors.Game.QuitPressed | src/components/CrazyColorsGame.jsx:241-242 | QUIT shows the exit overlay and changes nothing else |
| CrazyColors.Game.SelectOption | src/components/CrazyColorsGame.jsx:367-386 | A settings radio sets `optionIndex` to 0 or 1; `regim` and everything else unchanged |
| CrazyColors.Game.CloseSettings | src/components/CrazyColorsGame.jsx:393-394 | Close hides the settings overlay only |
| CrazyColors.Game.ContinueFromExit | src/components/CrazyColorsGame.jsx:421-422 | Continue hides the exit overlay only; the screen underneath is unchanged |
| CrazyColors.Game.ResetGame | src/components/CrazyColorsGame.jsx:209-219 | All five statistics become 0, the screen becomes intro, the exit overlay closes; settings, the settings and answer overlays, the selection and the question are unchanged |
| CrazyColors.Game.SettingsFromExit | src/components/CrazyColorsGame.jsx:433-437 | The exit overlay is replaced by the settings overlay; nothing else changes |
| CrazyColors.Game.EscapePressed | src/components/CrazyColorsGame.jsx:119-124 | Escape opens the exit overlay when no answer overlay shows, and changes nothing at all when one does |
| CrazyColors.Game.AnswerKeyDown | src/components/CrazyColorsGame.jsx:461-470 | Escape closes the answer overlay and opens the exit overlay, keeping the screen; any other key closes it and sets the selection screen; no statistic changes |
| CrazyColors.Game.KeyDown | src/components/CrazyColorsGame.jsx:461-473 | A key press reaches both window listeners, the answer overlay's (lines 461-473) and the window-wide Escape listener (lines 119-127): with the answer overlay showing it acts as the overlay's handler alone, otherwise Escape opens the exit overlay and other keys do nothing; statistics never change |
| CrazyColors.Game.AnswerChosen | src/components/CrazyColorsGame.jsx:197-207 | The verdict is true iff the answer equals the letters colour when the effective rule (coin if regim is 1, else option) is 0, and the background colour otherwise; only the verdict and `showAnswer := true` change |
| CrazyColors.Game.AnswerContinue | src/components/CrazyColorsGame.jsx:485-495 | `questionsAll` goes up by 1 and exactly one of right/wrong goes up by 1 according to the verdict, so the balance invariant is kept; the overlay closes and the screen becomes selection |
| CrazyColors.Game.SelectionTick | src/components/CrazyColorsGame.jsx:131-140 | On the selection screen before the lock, the selection index becomes the drawn palette index; otherwise nothing changes |
| CrazyColors.Game.SelectionLock | src/components/CrazyColorsGame.jsx:142-144 | On the selection screen before the lock, `isSelectionFixed` becomes true; otherwise nothing changes |
| CrazyColors.Game.GenerateNewQuestion | src/components/CrazyColorsGame.jsx:175-188 | The new question has the drawn letters colour, the first background draw that differs from it, and the current selection index as its word; nothing else changes |
| CrazyColors.Game.SelectionPauseEnd | src/components/CrazyColorsGame.jsx:145-148 | Unconditionally sets the main screen and releases the lock; when the screen was not main, a question is generated from the selection index current then; when it was, nothing else changes |
| CrazyColors.Game.StatsTick | src/components/CrazyColorsGame.jsx:159-173 | On the main screen with no answer overlay, the statistics take one `Tick`; otherwise nothing changes |
| Quiz.DrawBackground | src/components/CrazyColorsGame.jsx:176-180 | The do-while loop stops at the first draw that differs from the letters colour: every earlier draw equals it, and the result is in the palette and differs from the letters colour |
| Quiz.GeneratedIsValid | src/components/CrazyColorsGame.jsx:175-188 | A question generated from palette draws and an in-palette selection index has all three indices in the palette, letters and background different, and its background among the draws |
| Quiz.EffectiveRule | src/components/CrazyColorsGame.jsx:199-201 | The rule in force is the coin when regim is 1 and the chosen option otherwise, and 0 or 1 when both inputs are; how it decides the verdict is stated by `CrazyColors.Game.AnswerChosen` |
| Quiz.IsCorrect | src/components/CrazyColorsGame.jsx:198-203 | A correct answer is the letters or the background colour, and on a valid question it is the letters colour exactly when the rule is 0; `ExactlyOneCorrectAnswer`, `RulesDisagree` and `CrazyColors.Game.AnswerChosen` state the rest |
| Quiz.ExactlyOneCorrectAnswer | src/components/CrazyColorsGame.jsx:198-203 | For every rule, the set of correct answers among the nine buttons is exactly the letters colour (rule 0) or exactly the background colour (otherwise) |
| Quiz.RulesDisagree | src/components/CrazyColorsGame.jsx:198-203 | No answer is correct under both rules, and the letters colour is correct under rule 0 and wrong under rule 1 |
| Quiz.JudgingExamples | src/components/CrazyColorsGame.jsx:197-203 | With letters 2 and background 5: rule 0 accepts 2 and rejects 5 and 0; rule 1 accepts 5 and rejects 2; in random mode the coin decides |
| StatsTracker.RoundedAverage | src/components/CrazyColorsGame.jsx:167 | `Math.round(t / q)`: the result r satisfies r - 1/2 <= t/q < r + 1/2, halves rounding up |
| StatsTracker.RoundedAverageUnique | src/components/CrazyColorsGame.jsx:165-168 | Those bounds determine the rounded value: any r within them equals it |
| StatsTracker.RoundedAverageExamples | src/components/CrazyColorsGame.jsx:167 | 10 s over 3 answers gives 3, 7 over 2 gives 4, 5 over 2 gives 3 |
| StatsTracker.Tick | src/components/CrazyColorsGame.jsx:162-169 | `timeSpent` goes up by exactly 1, the three counters are unchanged, and `timePerAnswer` is 0 with no questions, else the rounded average of the time before the tick; a zero average before any question is kept |
| StatsTracker.Record | src/components/CrazyColorsGame.jsx:487-492 | One more question; the right counter goes up iff the verdict is right, the wrong counter iff it is wrong; time fields unchanged; balance and a zero average before any question preserved |
| StatsTracker.ReplayCounts | src/components/CrazyColorsGame.jsx:162-169 | After any sequence of ticks (162-169) and answers recorded by Continue (487-492), time equals the ticks counted, right and wrong equal the recorded verdicts counted, and balance and a zero average before any question are preserved |
| TimeDisplay.ShowNat | src/components/CrazyColorsGame.jsx:329-330 | The decimal text of a number is non-empty and all digits, has no leading zero unless the number is 0, is one digit iff the number is below 10, at most two below 100 |
| TimeDisplay.ReadShowNat | src/components/CrazyColorsGame.jsx:329 | The decimal text of a number reads back as that number |
| TimeDisplay.ReadNatLeadingZero | src/components/CrazyColorsGame.jsx:330 | Padding with a leading zero does not change the number read |
| TimeDisplay.PadStart2 | src/components/CrazyColorsGame.jsx:330 | `padStart(2, "0")` makes any text at least two characters long, leaves one of two or more characters unchanged, keeps it all digits and keeps the number it reads as |
| TimeDisplay.ClockText | src/components/CrazyColorsGame.jsx:329-330 | The `m:ss` text is the decimal minutes, a colon and the padded seconds; `ClockTextReadsBack` states what it reads back to |
| TimeDisplay.ClockTextReadsBack | src/components/CrazyColorsGame.jsx:329-330 | The `m:ss` text is minutes without a leading zero, a colon and exactly two digits of seconds below 60, and 60 times the minutes plus the seconds gives back the seconds played |

## Left out

- Rendering: the markup, styling, colour codes and names, stripe geometry and the `selectionY` position of the moving word. None of it affects the state the handlers change.
- Window size detection and the resize listener: presentation only.
- Timer durations (200 ms, 4000 ms, 2000 ms, 1000 ms) and the cancelling of timers. Each callback is an event that may arrive at any time, guarded by the condition under which its timer exists. The model therefore allows more event orders than real time does, for example a lock before 4000 ms have passed.
- The distribution of `Math.random`: draws are parameters, and nothing probabilistic is proved. `DrawBackground` needs one background draw that differs from the letters colour; the source's loop relies on this too.
- The prompt title above the question: it re-rolls its own coin at every render and changes no state.
- The exit overlay's quit button: it calls the host's window-closing functions and changes no state of the game.
- Which screen or overlay a button is shown on. The button methods (`StartPressed`, `SelectOption`, `AnswerChosen`, `AnswerContinue` and the others) do not require the screen or overlay that displays the button, just as the handlers themselves do not check it. The model therefore allows more event orders than the interface does, for example `AnswerContinue` with no answer overlay showing, which records the last verdict again. Every proved invariant holds on these extra orders too.
- Key listeners on non-Escape keys while no answer overlay shows do nothing, as in the source; key identities other than Escape are not modelled.
