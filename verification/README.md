# Trade-negotiation game: reducer and content table in Dafny

This project models the core of a two-persona trade-negotiation game. The
player controls either Trump or Carney through five dialogue stages. At each
stage the player picks one of three or four authored responses. Each response
moves two satisfaction scores and up to four deal terms: steel tariffs, dairy
access, a stability clause and retaliation rights. After stage 5 the game
decides whether a deal was made. One response at stage 5 is an outburst that
ends the negotiation at once.

The model has three modules:

- `GameContext` (`game_context.dfy`) is the reducer from
  `components/game-context.tsx`. It holds the `GameState` record and its
  initial value. It has `MakeChoice`, `AdvanceStage`, `ResetGame`,
  `ToggleLanguage` and `ToggleAudio`, each a pure `GameState -> GameState`
  function. `Clamp` is the `Math.max(0, Math.min(100, _))` the reducer applies
  to every numeric field. A choice's effect is a record whose every property is
  an `Option`.
- `GameScreen` (`game_screen.dfy`) holds the pure functions of
  `components/game-screen.tsx`:
  - `translate`;
  - `getDialogue` / `getKoreanDialogue`, which resolve the player and
    opponent slots to a persona;
  - `getChoices`, the table of responses with their effects transcribed
    exactly;
  - the end-screen classifiers: heading, steel and dairy wording, and the
    strategy paragraph.

  Prose is represented by tokens that name the line they stand for:
  `Speech(persona, stage, language)` and
  `ChoiceText(persona, stage, index, language)`.
- `GamePlay` (`game_play.dfy`) models whole games as the screen drives them.
  A response button calls `makeChoice` and opens the round-results panel. The
  panel's Continue button closes it and calls `advanceStage`. When the game is
  over the screen returns early with the end screen, whose Play Again button
  calls `resetGame`. A `Session` pairs the game state with the screen's
  `showingResults` flag. `Enabled` says which buttons are on screen, and `Run`
  plays a list of button presses.

`Wrappers` (`wrappers.dfy`) supplies `Option`.

The central facts proved:

- Every reachable state keeps all four numeric fields in [0, 100].
- A collapse happens only at stage 5 and is never reported as a deal.
- A normally finished game is a deal exactly when the player's own score is at
  least 40 and the opponent's is at least 30.
- No response revokes a clause, so a clause once agreed stays agreed until
  Play Again.
- The table has three responses at stages 1 to 4 and four at stage 5. The last
  response of stage 5 is its only disastrous entry.
- The display language changes only response texts.

Two behaviours of the code matter for the invariants:

- `advanceStage` tests `stage >= 5` rather than `stage == 5`. It has no guard
  for a finished game and ignores the disastrous flag. `AdvanceAfterCollapse`
  shows what that would allow. The invariant holds because the screen offers
  no Continue button on a finished game (components/game-screen.tsx:46).
- `resetGame` restores the persona the provider was created with, not the
  current state's persona.

## Model

| member | source | states |
|---|---|---|
| GameContext.Clamp | components/game-context.tsx:90-91 | the result lies in [0, 100], equals the input inside that range, and is 0 below it and 100 above it |
| GameContext.Initial | components/game-context.tsx:52-68 | stage 1, both scores 50, tariffs 100, dairy 0, both clauses and all three outcome flags false, the chosen persona, English, audio off |
| GameContext.MakeChoice | components/game-context.tsx:70-123 | a disastrous effect sets game over, no deal and collapse, and leaves stage, scores, deal terms, persona and preferences as they were; otherwise both scores become the clamped sums, tariffs and dairy are clamped sums when their delta is present and unchanged when absent, each clause takes the supplied literal or keeps its value, and stage, outcome flags, persona and preferences are unchanged; clamped inputs give clamped outputs |
| GameContext.AdvanceStage | components/game-context.tsx:125-147 | the stage goes up by one; the game is over afterwards exactly when it was already over or the stage was at least 5; from stage 5 on the deal flag is the asymmetric threshold on own and opponent scores; nothing else changes |
| GameContext.ResetGame | components/game-context.tsx:149-167 | every negotiation field takes its initial value, the persona is the provider's initial one, and language and audio are kept |
| GameContext.ToggleLanguage | components/game-context.tsx:169-174 | the language changes and no other field does |
| GameContext.ToggleAudio | components/game-context.tsx:176-181 | the audio flag changes and no other field does |
| GameContext.ClauseOverrideIdempotent | components/game-context.tsx:103-109 | applying the same effect twice leaves both clauses as one application does, because a clause override is an assignment and not a toggle |
| GameContext.DisastrousIdempotent | components/game-context.tsx:81-88 | a second disastrous effect changes nothing |
| GameContext.ClausesStayTrue | components/game-context.tsx:103-109 | an effect that never supplies false cannot turn a true clause false |
| GameContext.AdvanceBeforeLastStage | components/game-context.tsx:142-145 | below stage 5, advancing changes only the stage, so the game-over flag is unchanged |
| GameContext.DealThresholdBoundary | components/game-context.tsx:127-139 | at stage 5, own 40 with opponent 30 makes the deal; own 39 with opponent 30 does not, nor does own 30 with opponent 40; the game ends at stage 6 |
| GameContext.PersonaSwapsScores | components/game-context.tsx:129-130 | switching the persona exchanges which score counts as own and which as the opponent's |
| GameContext.ResetIdempotent | components/game-context.tsx:149-167 | resetting twice equals resetting once |
| GameContext.ResetIsInitial | components/game-context.tsx:149-167 | a reset state is the provider's initial state with the current language and audio preference |
| GameContext.ToggleLanguageInvolution | components/game-context.tsx:169-174 | toggling the language twice is the identity |
| GameContext.ToggleAudioInvolution | components/game-context.tsx:176-181 | toggling audio twice is the identity |
| GameScreen.Translate | components/game-screen.tsx:42-44 | the English alternative in English, the Korean one otherwise |
| GameScreen.TranslateAfterToggle | components/game-screen.tsx:42-44 | after a language toggle every translated string shows its other alternative |
| GameScreen.GetDialogue | components/game-screen.tsx:500-535 | at stages 1 to 5 the player slot speaks the player's persona's English line and the opponent slot the other persona's; at any other stage the empty string |
| GameScreen.GetKoreanDialogue | components/game-screen.tsx:537-572 | the same resolution, with Korean lines |
| GameScreen.DialogueSlotSwap | components/game-screen.tsx:500-502 | for every stage, in both languages (the Korean function repeats the test at 537-539), swapping the persona and the slot gives the same line |
| GameScreen.DialogueSlotsDiffer | components/game-screen.tsx:537-572 | at a playable stage the two slots show different personas, the player slot the player's own, and the Korean line translates the English one |
| GameScreen.GetChoices | components/game-screen.tsx:574-952 | for both personas and languages there are three responses at stages 1 to 4, four at stage 5 and none elsewhere; the text at position i is the one authored for that position; every entry has what `makeChoice` reads: the disastrous flag, or both satisfaction deltas |
| GameScreen.OnlyFinalOutburstIsDisastrous | components/game-screen.tsx:574-952 | an entry is disastrous exactly when it is the fourth response at stage 5 (lines 752-759 and 939-946), and that entry carries nothing else |
| GameScreen.ChoicesAdmissible | components/game-context.tsx:28-36 | every table entry has what `makeChoice` reads: the non-disastrous ones carry both satisfaction deltas; no entry sets a clause to false. The two outburst entries (components/game-screen.tsx:756-758 and 943-945) omit the deltas the declared type requires, which is harmless because the disastrous branch (components/game-context.tsx:81-88) returns before reading them |
| GameScreen.LanguageOnlyChangesText | components/game-screen.tsx:574-952 | the English and Korean tables have equal length and equal effects at every position, and their texts differ only in language |
| GameScreen.EndHeading | components/game-screen.tsx:76-83 | "collapsed" exactly when the collapse flag is set; "deal made" exactly when there is no collapse and the deal flag is set; "failed" otherwise |
| GameScreen.SteelTariffLabel | components/game-screen.tsx:110-123 | "completely removed" exactly at 0, "significantly reduced" for other values below 50, "partially reduced" on [50, 100), "maintained" from 100 |
| GameScreen.SteelLabelMonotone | components/game-screen.tsx:110-116 | on [0, 100] a higher tariff never gets a more-reduced label |
| GameScreen.DairyAccessLabel | components/game-screen.tsx:129-142 | "fully open" above 75, "significantly increased" on (50, 75], "slightly increased" on (0, 50], "unchanged" at 0 and below |
| GameScreen.DairyLabelMonotone | components/game-screen.tsx:129-135 | more dairy access never gets a label of less opening |
| GameScreen.Strategy | components/game-screen.tsx:201-215 | one fixed paragraph for Trump; for Carney, "comprehensive" with both clauses, "stability only" with the stability clause alone, and "unprotected" without it, even when retaliation rights are held |
| GamePlay.StrategyNeverWorsens | components/game-screen.tsx:201-215 | between resets Carney's strategy reading never falls back: "stability only" never becomes "unprotected", and "comprehensive" stays |
| GamePlay.Offered | components/game-screen.tsx:343 | the responses shown in a state are the table's entries for its stage, persona and language: three at stages 1 to 4, four at stage 5, none otherwise, each with the text authored for its position and the effects the table gives that position for that persona, whatever the language |
| GamePlay.OfferedOnlyWhilePlayable | components/game-screen.tsx:343 | responses exist only at stages 1 to 5, each is admissible, and a disastrous one only at stage 5 |
| GamePlay.ApplyOffered | components/game-screen.tsx:343-349 | applying an offered response keeps the reachable-state invariant on a running game, keeps stage and persona, and never turns a clause false |
| GamePlay.AdvanceKeepsValid | components/game-context.tsx:125-147 | on a running game that satisfies the invariant, advancing keeps it, so a collapse never comes with a deal |
| GamePlay.AdvanceAfterCollapse | components/game-context.tsx:127-139 | on a collapsed game at stage 5 whose scores pass the thresholds, `advanceStage` would set the deal flag beside the collapse flag |
| GamePlay.NewSession | components/game-context.tsx:52-68 | a session mounted for the selected persona (app/page.tsx:24-25) starts from the provider's initial state, in English with audio off, with that persona as the initial one, no responses applied and the results panel closed (`useState(false)` at components/game-screen.tsx:12) |
| GamePlay.Enabled | components/game-screen.tsx:46-71 | a pressable response is one of the offered ones, which exist only at stages 1 to 5; on the end screen (the early return at 46) only Play Again and the two toggles exist, and Play Again (224) exists only there; on a running game Continue (the panel at 423) is available exactly when the panel is open, and every offered response exactly when it is closed |
| GamePlay.PlayAgainAsWritten | components/game-screen.tsx:224 | Play Again as written gives a fresh negotiation for the initial persona, keeps the preferences, and leaves the results flag as it was |
| GamePlay.PlayAgainCorrected | components/game-screen.tsx:224 | the corrected Play Again gives a fresh negotiation for the initial persona, keeps the session's initial persona and the preferences, resets the response count and closes the results panel |
| GamePlay.StepCommon | components/game-screen.tsx:343-350 | a button that is not on screen changes nothing; a response applies `makeChoice` with that response's effects, opens the panel and counts one response; Continue (483-487) applies `advanceStage` and closes the panel; the toggles (64-71) apply their reducer action; the initial persona is kept |
| GamePlay.StepAsWritten | components/game-screen.tsx:224 | one press on the screen as written: hidden buttons do nothing; every other button acts as in `StepCommon`; Play Again on the end screen gives a fresh game for the initial persona, keeps language and audio (components/game-context.tsx:164-165), resets the response count, and leaves the results flag as it was |
| GamePlay.Step | components/game-screen.tsx:224 | one press on the corrected screen: the same, except that Play Again also closes the results panel |
| GamePlay.RunAsWritten | components/game-screen.tsx:46-71 | a sequence of presses never changes the initial persona, and presses of the toggles alone leave the negotiation untouched |
| GamePlay.Run | components/game-screen.tsx:46-71 | the same two facts on the corrected screen |
| GamePlay.RunAsWrittenKeepsValid | components/game-screen.tsx:46 | for every sequence of presses on the screen as written, the invariant holds: clamped fields, stage in [1, 6], collapse only at stage 5 and never with a deal, and a finished game decided by the thresholds |
| GamePlay.FinishedGameOutcome | components/game-screen.tsx:76-83 | for every game from the first screen, the heading reads "collapsed" only at stage 5, and after a normal end it reads "deal made" exactly when the thresholds are met |
| GamePlay.StepKeepsValidCorrected | components/game-screen.tsx:483-487 | one press on the corrected screen keeps the round count in step with the stage |
| GamePlay.RunKeepsValidCorrected | components/game-screen.tsx:483-487 | on the corrected screen, a running game at stage k has had k - 1 responses applied (k with the panel open) and a finished game five |
| GamePlay.NewSessionValidCorrected | components/game-screen.tsx:224 | a new session satisfies the corrected invariant, and so does every game played from it on the corrected screen |
| GamePlay.StepProgresses | components/game-context.tsx:70-147 | one press other than Play Again never lowers the stage, keeps the persona, never revokes a clause, and leaves a finished game unchanged apart from preferences |
| GamePlay.RunProgresses | components/game-context.tsx:70-147 | between resets the stage only rises, the persona stays, agreed clauses stay agreed, a finished game stays as it ended, and both screen variants agree |
| GamePlay.PlayAgainAsWrittenSkipsStageOne | components/game-screen.tsx:348-350 | if the results panel is still flagged open when a game ends, Play Again as written offers Continue at stage 1, and Continue reaches stage 2 with no response applied |
| GamePlay.OutburstThenPlayAgainAsWritten | components/game-screen.tsx:752-759 | a concrete game reaches that state: Trump takes the first response four times and then the outburst |
| GamePlay.PlayAgainCorrectedRestarts | components/game-screen.tsx:224 | after the corrected Play Again the session equals a new one apart from preferences, with no Continue button |
| GamePlay.Rounds | components/game-screen.tsx:483-487 | a list of picks becomes, in order, a press of the k-th picked response at position 2k followed by Continue at 2k + 1 |
| GamePlay.FullRound | components/game-screen.tsx:483-487 | a round with a non-disastrous response applies its effects, advances the stage and closes the panel, on both screen variants |
| GamePlay.TrumpFirstResponses | components/game-screen.tsx:577-760 | as Trump, taking the first response five times ends 75/50 with a deal, tariffs completely removed and dairy fully open |
| GamePlay.TrumpHardLineFails | components/game-screen.tsx:577-760 | as Trump, the hardest line ends 100/10 without a deal, under the "failed" heading |
| GamePlay.CarneyComprehensiveDeal | components/game-screen.tsx:764-947 | as Carney, one path ends with both clauses and a deal; both the score and the tariffs are clamped on the last response, and the strategy paragraph is the comprehensive one |

## Left out

- React machinery is not modelled: `useState` updaters, the context provider and `useGame`. Each operation is a function of the previous value. A sequence of clicks sees each update before the next click, so `resetGame` reading the rendered `state` rather than `prev` makes no difference.
- Audio playback, the remote music file, `useEffect` and the screen-reader announcement with its timer are left out. They are I/O and timing.
- JSX layout, images, progress bars and the running deal-term panel are left out. They only display fields the model already has.
- The English and Korean prose is left out. Dialogue and response texts are opaque tokens keyed by persona, stage, position and language.
- The end screen's "what happened" paragraph, its outcome paragraph and the included/preserved wording of the clauses are left out. Each is a two-way choice on a field already in the model.
- The disclaimer, character selection, footer and page shell are left out. A session starts from `NewSession` for the selected persona.
- JavaScript numbers are doubles; the model uses unbounded integers. Every value the table and the reducer produce is a small integer, so nothing is lost.
- GameContext.MakeChoice: requires that a non-disastrous effect carries both satisfaction deltas, as `makeChoice`'s parameter type does. An effect without them would turn a score into `NaN` in JavaScript, and that is not modelled.
- GamePlay.Enabled: the results panel is an overlay without a focus trap. A keyboard user could still reach the buttons behind it, which is not modelled. The preference toggles are treated as always available.
- `rounds` in `GamePlay.Session` is bookkeeping of the model, not a field of the program. It counts responses applied since the last reset.

## Findings

| source | as written | input that shows it | evidently intended | confidence | as-written member | corrected member |
|---|---|---|---|---|---|---|
| components/game-screen.tsx:224 | Play Again calls `resetGame` only. The outburst response had set `showingResults` (line 350) and ended the game, so the end screen hides the results panel without closing it. After the reset the panel reappears on the new game's stage 1. Its Continue button (483-487) moves to stage 2 without any response applied. | as Trump: response 0 then Continue at stages 1 to 4, response 3 at stage 5, then Play Again, then Continue | a new game starts on stage 1's responses with the panel closed, and each stage is entered after exactly one response | not executed; high (from reading the component's state handling) | GamePlay.PlayAgainAsWritten, GamePlay.PlayAgainAsWrittenSkipsStageOne, GamePlay.OutburstThenPlayAgainAsWritten | GamePlay.PlayAgainCorrected, GamePlay.RunKeepsValidCorrected |
