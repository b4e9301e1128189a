/** The negotiation reducer of components/game-context.tsx: one state record,
    its initial value, and the five operations the game screen calls. Every
    operation is a pure function from the previous state to the next one. */
module GameContext {

  import opened Wrappers

  /** The two personas; the player controls one of them for the whole game. */
  datatype Character = Trump | Carney

  datatype Language = English | Korean

  /** The four deal terms shown on the game and end screens. */
  datatype DealPoints = DealPoints(
    steelTariffs: int,       // 0 = removed, 100 = full tariffs
    dairyAccess: int,        // 0 = no access, 100 = full access
    stabilityClause: bool,
    retaliationRights: bool)

  datatype GameState = GameState(
    character: Character,
    stage: int,
    trumpSatisfaction: int,
    carneySatisfaction: int,
    dealPoints: DealPoints,
    gameOver: bool,
    dealMade: bool,
    disastrousOutcome: bool,
    language: Language,
    audioEnabled: bool)

  /** The argument of `makeChoice`. Every property is optional here because the
      table's two disastrous entries carry nothing but the disastrous flag;
      `Admissible` states what the parameter type demands of the rest. */
  datatype Effect = Effect(
    trumpEffect: Option<int>,
    carneyEffect: Option<int>,
    steelTariffsEffect: Option<int>,
    dairyAccessEffect: Option<int>,
    stabilityClauseEffect: Option<bool>,
    retaliationRightsEffect: Option<bool>,
    disastrousOutcome: Option<bool>)

  /** The effect with no property set. */
  const NoEffect: Effect := Effect(None, None, None, None, None, None, None)

  /** An effect carrying only the two satisfaction deltas. */
  function Deltas(trump: int, carney: int): Effect
  {
    NoEffect.(trumpEffect := Some(trump), carneyEffect := Some(carney))
  }

  /** `if (choice.disastrousOutcome)` tests truthiness: only a literal `true` counts. */
  predicate IsDisastrous(e: Effect)
  {
    e.disastrousOutcome == Some(true)
  }

  /** What `makeChoice` needs of its argument: a disastrous effect needs nothing
      else, any other effect must carry both satisfaction deltas (the two
      non-optional properties of the parameter type). */
  predicate Admissible(e: Effect)
  {
    IsDisastrous(e) || (e.trumpEffect.Some? && e.carneyEffect.Some?)
  }

  /** `Math.max(0, Math.min(100, x))`. */
  function Clamp(x: int): (r: int)
    ensures 0 <= r <= 100
    ensures 0 <= x <= 100 ==> r == x
    ensures x < 0 ==> r == 0
    ensures x > 100 ==> r == 100
  {
    if x < 0 then 0 else if x > 100 then 100 else x
  }

  predicate InPercentRange(x: int)
  {
    0 <= x <= 100
  }

  /** All four numeric fields lie in [0, 100]. */
  predicate InBounds(s: GameState)
  {
    && InPercentRange(s.trumpSatisfaction)
    && InPercentRange(s.carneySatisfaction)
    && InPercentRange(s.dealPoints.steelTariffs)
    && InPercentRange(s.dealPoints.dairyAccess)
  }

  /** The negotiation fields hold the provider's `useState` starting values. */
  predicate IsFresh(s: GameState)
  {
    && s.stage == 1
    && s.trumpSatisfaction == 50
    && s.carneySatisfaction == 50
    && s.dealPoints == DealPoints(100, 0, false, false)
    && !s.gameOver
    && !s.dealMade
    && !s.disastrousOutcome
  }

  /** `a` and `b` agree on everything but the three outcome flags. */
  predicate SameExceptOutcome(a: GameState, b: GameState)
  {
    && a.character == b.character
    && a.stage == b.stage
    && a.trumpSatisfaction == b.trumpSatisfaction
    && a.carneySatisfaction == b.carneySatisfaction
    && a.dealPoints == b.dealPoints
    && a.language == b.language
    && a.audioEnabled == b.audioEnabled
  }

  /** `a` and `b` agree on stage, outcome flags, persona and preferences. */
  predicate SameProgress(a: GameState, b: GameState)
  {
    && a.character == b.character
    && a.stage == b.stage
    && a.gameOver == b.gameOver
    && a.dealMade == b.dealMade
    && a.disastrousOutcome == b.disastrousOutcome
    && a.language == b.language
    && a.audioEnabled == b.audioEnabled
  }

  /** The satisfaction of the persona the player controls. */
  function PlayerSatisfaction(s: GameState): int
  {
    if s.character == Trump then s.trumpSatisfaction else s.carneySatisfaction
  }

  /** The satisfaction of the other persona. */
  function OpponentSatisfaction(s: GameState): int
  {
    if s.character == Trump then s.carneySatisfaction else s.trumpSatisfaction
  }

  /** The asymmetric success rule: the player's own bar is 40, the opponent's 30. */
  predicate DealReached(s: GameState)
  {
    PlayerSatisfaction(s) >= 40 && OpponentSatisfaction(s) >= 30
  }

  /** The value the provider starts from for the chosen persona. */
  function Initial(initialCharacter: Character): (r: GameState)
    ensures IsFresh(r) && InBounds(r)
    ensures r.character == initialCharacter
    ensures r.language == English && !r.audioEnabled
  {
    GameState(initialCharacter, 1, 50, 50, DealPoints(100, 0, false, false),
              false, false, false, English, false)
  }

  /** `makeChoice`: a disastrous effect ends the game on the spot and touches
      nothing else; otherwise the deltas are added and clamped to [0, 100]
      (tariffs and dairy access only when their delta is present) and the two
      clauses take the supplied literal when there is one. */
  function MakeChoice(prev: GameState, e: Effect): (r: GameState)
    requires Admissible(e)
    ensures IsDisastrous(e) ==>
              r.gameOver && !r.dealMade && r.disastrousOutcome && SameExceptOutcome(prev, r)
    ensures !IsDisastrous(e) ==>
              && SameProgress(prev, r)
              && r.trumpSatisfaction == Clamp(prev.trumpSatisfaction + e.trumpEffect.value)
              && r.carneySatisfaction == Clamp(prev.carneySatisfaction + e.carneyEffect.value)
              && (e.steelTariffsEffect.None? ==> r.dealPoints.steelTariffs == prev.dealPoints.steelTariffs)
              && (e.steelTariffsEffect.Some? ==>
                    r.dealPoints.steelTariffs == Clamp(prev.dealPoints.steelTariffs + e.steelTariffsEffect.value))
              && (e.dairyAccessEffect.None? ==> r.dealPoints.dairyAccess == prev.dealPoints.dairyAccess)
              && (e.dairyAccessEffect.Some? ==>
                    r.dealPoints.dairyAccess == Clamp(prev.dealPoints.dairyAccess + e.dairyAccessEffect.value))
              && (e.stabilityClauseEffect.None? ==> r.dealPoints.stabilityClause == prev.dealPoints.stabilityClause)
              && (e.stabilityClauseEffect.Some? ==> r.dealPoints.stabilityClause == e.stabilityClauseEffect.value)
              && (e.retaliationRightsEffect.None? ==> r.dealPoints.retaliationRights == prev.dealPoints.retaliationRights)
              && (e.retaliationRightsEffect.Some? ==> r.dealPoints.retaliationRights == e.retaliationRightsEffect.value)
    ensures InBounds(prev) ==> InBounds(r)
  {
    if IsDisastrous(e) then
      prev.(gameOver := true, dealMade := false, disastrousOutcome := true)
    else
      var steel := if e.steelTariffsEffect.Some?
                   then Clamp(prev.dealPoints.steelTariffs + e.steelTariffsEffect.value)
                   else prev.dealPoints.steelTariffs;
      var dairy := if e.dairyAccessEffect.Some?
                   then Clamp(prev.dealPoints.dairyAccess + e.dairyAccessEffect.value)
                   else prev.dealPoints.dairyAccess;
      prev.(trumpSatisfaction := Clamp(prev.trumpSatisfaction + e.trumpEffect.value),
            carneySatisfaction := Clamp(prev.carneySatisfaction + e.carneyEffect.value),
            dealPoints := DealPoints(steel, dairy,
                                     e.stabilityClauseEffect.GetOr(prev.dealPoints.stabilityClause),
                                     e.retaliationRightsEffect.GetOr(prev.dealPoints.retaliationRights)))
  }

  /** `advanceStage`: always moves one stage on; from stage 5 or later it also
      ends the game and decides the deal. It has no guard against a game that
      is already over and does not look at the disastrous flag. */
  function AdvanceStage(prev: GameState): (r: GameState)
    ensures r.stage == prev.stage + 1
    ensures r.gameOver <==> prev.gameOver || prev.stage >= 5
    ensures prev.stage >= 5 ==> (r.dealMade <==> DealReached(prev))
    ensures prev.stage < 5 ==> r.dealMade == prev.dealMade
    ensures SameExceptOutcome(prev, r.(stage := prev.stage))
    ensures r.disastrousOutcome == prev.disastrousOutcome
  {
    if prev.stage >= 5 then
      var player := if prev.character == Trump then prev.trumpSatisfaction else prev.carneySatisfaction;
      var opponent := if prev.character == Trump then prev.carneySatisfaction else prev.trumpSatisfaction;
      prev.(stage := prev.stage + 1, gameOver := true, dealMade := player >= 40 && opponent >= 30)
    else
      prev.(stage := prev.stage + 1)
  }

  /** `resetGame`: a fresh negotiation for the persona the provider was created
      with, keeping the display language and the audio preference. */
  function ResetGame(s: GameState, initialCharacter: Character): (r: GameState)
    ensures IsFresh(r) && InBounds(r)
    ensures r.character == initialCharacter
    ensures r.language == s.language && r.audioEnabled == s.audioEnabled
  {
    GameState(initialCharacter, 1, 50, 50, DealPoints(100, 0, false, false),
              false, false, false, s.language, s.audioEnabled)
  }

  function ToggleLanguage(s: GameState): (r: GameState)
    ensures r.language != s.language
    ensures r.(language := s.language) == s
  {
    s.(language := if s.language == English then Korean else English)
  }

  function ToggleAudio(s: GameState): (r: GameState)
    ensures r.audioEnabled != s.audioEnabled
    ensures r.(audioEnabled := s.audioEnabled) == s
  {
    s.(audioEnabled := !s.audioEnabled)
  }

  // ---------------------------------------------------------------------------
  // Properties relating several calls
  // ---------------------------------------------------------------------------

  /** A clause override is an assignment, not a toggle: applying the same
      effect twice leaves both clauses as one application does. */
  lemma ClauseOverrideIdempotent(s: GameState, e: Effect)
    requires Admissible(e)
    ensures MakeChoice(MakeChoice(s, e), e).dealPoints.stabilityClause
            == MakeChoice(s, e).dealPoints.stabilityClause
    ensures MakeChoice(MakeChoice(s, e), e).dealPoints.retaliationRights
            == MakeChoice(s, e).dealPoints.retaliationRights
  {
  }

  /** A disastrous effect absorbs a second one: the state is already final. */
  lemma DisastrousIdempotent(s: GameState, e: Effect)
    requires IsDisastrous(e)
    ensures MakeChoice(MakeChoice(s, e), e) == MakeChoice(s, e)
  {
  }

  /** Once a clause is true, an effect that never supplies `false` keeps it true. */
  lemma ClausesStayTrue(s: GameState, e: Effect)
    requires Admissible(e)
    requires e.stabilityClauseEffect != Some(false) && e.retaliationRightsEffect != Some(false)
    ensures s.dealPoints.stabilityClause ==> MakeChoice(s, e).dealPoints.stabilityClause
    ensures s.dealPoints.retaliationRights ==> MakeChoice(s, e).dealPoints.retaliationRights
  {
  }

  /** Before the last stage, advancing only moves the stage counter on. */
  lemma AdvanceBeforeLastStage(s: GameState)
    requires s.stage < 5
    ensures AdvanceStage(s) == s.(stage := s.stage + 1)
    ensures AdvanceStage(s).gameOver == s.gameOver
  {
  }

  /** From stage 5 the deal is made exactly at the asymmetric thresholds:
      own 40 with opponent 30 succeeds, own 39 fails, and so does the mirror
      image own 30 with opponent 40. */
  lemma DealThresholdBoundary(s: GameState)
    requires s.stage == 5
    ensures PlayerSatisfaction(s) == 40 && OpponentSatisfaction(s) == 30 ==> AdvanceStage(s).dealMade
    ensures PlayerSatisfaction(s) == 39 && OpponentSatisfaction(s) == 30 ==> !AdvanceStage(s).dealMade
    ensures PlayerSatisfaction(s) == 30 && OpponentSatisfaction(s) == 40 ==> !AdvanceStage(s).dealMade
    ensures AdvanceStage(s).gameOver && AdvanceStage(s).stage == 6
  {
  }

  /** Which score is "own" depends only on the persona: swapping the persona
      swaps the two scores, so the same state can succeed for one side only. */
  lemma PersonaSwapsScores(s: GameState)
    ensures PlayerSatisfaction(s.(character := Carney)) == OpponentSatisfaction(s.(character := Trump))
    ensures OpponentSatisfaction(s.(character := Carney)) == PlayerSatisfaction(s.(character := Trump))
  {
  }

  /** Resetting twice is resetting once. */
  lemma ResetIdempotent(s: GameState, c: Character)
    ensures ResetGame(ResetGame(s, c), c) == ResetGame(s, c)
  {
  }

  /** A reset state is the provider's initial state up to the two preferences. */
  lemma ResetIsInitial(s: GameState, c: Character)
    ensures ResetGame(s, c) == Initial(c).(language := s.language, audioEnabled := s.audioEnabled)
  {
  }

  lemma ToggleLanguageInvolution(s: GameState)
    ensures ToggleLanguage(ToggleLanguage(s)) == s
  {
  }

  lemma ToggleAudioInvolution(s: GameState)
    ensures ToggleAudio(ToggleAudio(s)) == s
  {
  }
}
