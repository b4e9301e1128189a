/** Whole games as the game screen drives them. A round is a click on one of
    the offered responses (`makeChoice` with that response's effects, which
    opens the round-results panel) followed by a click on its Continue button
    (`advanceStage`). Once the game is over the screen shows only the end
    screen, whose Play Again button calls `resetGame`. The two preference
    toggles are on screen throughout. */
module GamePlay {

  import opened Wrappers
  import opened GameContext
  import opened GameScreen

  // ---------------------------------------------------------------------------
  // The game-level invariant
  // ---------------------------------------------------------------------------

  /** What holds of every state the screen can reach: stages run from 1 to the
      post-game stage 6, the four numeric fields are clamped, a collapse can
      only happen at the final stage and never counts as a deal, and a game that
      ended normally was decided by the asymmetric thresholds. */
  predicate Valid(s: GameState)
  {
    && 1 <= s.stage <= 6
    && InBounds(s)
    && (s.disastrousOutcome ==> s.gameOver && !s.dealMade && s.stage == 5)
    && (s.gameOver <==> s.stage == 6 || s.disastrousOutcome)
    && (s.dealMade ==> s.gameOver)
    && (s.stage == 6 ==> (s.dealMade <==> DealReached(s)))
  }

  /** The responses the screen offers in a state: the table's entries for its
      stage and persona, whose effects do not depend on the language. */
  function Offered(s: GameState): (r: seq<Choice>)
    ensures |r| == ChoiceCount(s.stage)
    ensures forall i | 0 <= i < |r| :: r[i].text == ChoiceText(s.character, s.stage, i, s.language)
    ensures forall i | 0 <= i < |r| :: r[i].effects == GetChoices(s.stage, s.character, English)[i].effects
  {
    LanguageOnlyChangesText(s.stage, s.character);
    GetChoices(s.stage, s.character, s.language)
  }

  /** Responses are offered only at the five playable stages. */
  lemma OfferedOnlyWhilePlayable(s: GameState, i: nat)
    requires i < |Offered(s)|
    ensures 1 <= s.stage <= 5
    ensures Admissible(Offered(s)[i].effects)
    ensures IsDisastrous(Offered(s)[i].effects) ==> s.stage == 5
  {
    ChoicesAdmissible(s.stage, s.character, s.language, i);
    OnlyFinalOutburstIsDisastrous(s.stage, s.character, s.language, i);
  }

  /** One click on the i-th offered response, applied to the game state. */
  function ApplyOffered(s: GameState, i: nat): (r: GameState)
    requires i < |Offered(s)|
    ensures Valid(s) && !s.gameOver ==> Valid(r)
    ensures s.dealPoints.stabilityClause ==> r.dealPoints.stabilityClause
    ensures s.dealPoints.retaliationRights ==> r.dealPoints.retaliationRights
    ensures r.stage == s.stage && r.character == s.character
  {
    OfferedOnlyWhilePlayable(s, i);
    ChoicesAdmissible(s.stage, s.character, s.language, i);
    MakeChoice(s, Offered(s)[i].effects)
  }

  /** Continue on a running game keeps the invariant: before stage 5 nothing
      but the stage changes, at stage 5 the thresholds decide the deal. */
  lemma AdvanceKeepsValid(s: GameState)
    requires Valid(s) && !s.gameOver
    ensures Valid(AdvanceStage(s))
    ensures AdvanceStage(s).disastrousOutcome ==> !AdvanceStage(s).dealMade
  {
  }

  /** Without the screen's discipline the invariant fails: `advanceStage`
      tests only `stage >= 5`, so calling it again on a collapsed game at
      stage 5 would record a deal for a negotiation that collapsed. */
  lemma AdvanceAfterCollapse(s: GameState)
    requires s.disastrousOutcome && s.stage == 5 && DealReached(s)
    ensures AdvanceStage(s).disastrousOutcome && AdvanceStage(s).dealMade
  {
  }

  // ---------------------------------------------------------------------------
  // The screen as a state machine
  // ---------------------------------------------------------------------------

  /** The provider state together with the screen's own `showingResults` flag.
      `initialCharacter` is the persona the provider was created with; `rounds`
      is bookkeeping of this model only: responses applied since the last
      reset. */
  datatype Session = Session(initialCharacter: Character, game: GameState, showingResults: bool, rounds: nat)

  /** The buttons a player can press. */
  datatype Action = Choose(index: nat) | Continue | PlayAgain | SwitchLanguage | SwitchAudio

  function NewSession(c: Character): (ss: Session)
    ensures IsFresh(ss.game) && ss.game.character == c && !ss.showingResults && ss.rounds == 0
    ensures ss.initialCharacter == c && ss.game == Initial(c)
    ensures ss.game.language == English && !ss.game.audioEnabled
  {
    Session(c, Initial(c), false, 0)
  }

  /** Which buttons are on screen: the responses while the game runs and the
      results panel is closed, Continue while the panel is open on a running
      game, Play Again on the end screen. */
  predicate Enabled(ss: Session, a: Action)
    ensures Enabled(ss, a) && a.Choose? ==> 1 <= ss.game.stage <= 5 && a.index < |Offered(ss.game)|
    ensures ss.game.gameOver ==> (Enabled(ss, a) <==> !a.Choose? && !a.Continue?)
    ensures a == PlayAgain ==> (Enabled(ss, a) <==> ss.game.gameOver)
    ensures !ss.game.gameOver && (a == Continue || (a.Choose? && a.index < |Offered(ss.game)|)) ==>
              (Enabled(ss, a) <==> (a == Continue <==> ss.showingResults))
  {
    match a
    case Choose(i) => !ss.game.gameOver && !ss.showingResults && i < |Offered(ss.game)|
    case Continue => !ss.game.gameOver && ss.showingResults
    case PlayAgain => ss.game.gameOver
    case SwitchLanguage => true
    case SwitchAudio => true
  }

  /** Play Again as the screen has it: `resetGame` alone; the results flag is
      left as it was. */
  function PlayAgainAsWritten(ss: Session): (r: Session)
    ensures IsFresh(r.game) && r.rounds == 0
    ensures r.showingResults == ss.showingResults
    ensures r.game.character == ss.initialCharacter && r.initialCharacter == ss.initialCharacter
    ensures r.game.language == ss.game.language && r.game.audioEnabled == ss.game.audioEnabled
  {
    ss.(game := ResetGame(ss.game, ss.initialCharacter), rounds := 0)
  }

  /** Play Again with the results panel closed as well, so that a new game
      starts on the same screen as the first one. */
  function PlayAgainCorrected(ss: Session): (r: Session)
    ensures IsFresh(r.game) && r.rounds == 0 && !r.showingResults
    ensures r.game.character == ss.initialCharacter && r.initialCharacter == ss.initialCharacter
    ensures r.game.language == ss.game.language && r.game.audioEnabled == ss.game.audioEnabled
  {
    ss.(game := ResetGame(ss.game, ss.initialCharacter), showingResults := false, rounds := 0)
  }

  /** Every button but Play Again, which the two variants below treat apart.
      A button that is not on screen cannot be pressed: it changes nothing. */
  function StepCommon(ss: Session, a: Action): (r: Session)
    requires a != PlayAgain
    ensures !Enabled(ss, a) ==> r == ss
    ensures r.initialCharacter == ss.initialCharacter
    ensures Enabled(ss, a) && a.Choose? ==>
              r == ss.(game := MakeChoice(ss.game, Offered(ss.game)[a.index].effects),
                       showingResults := true, rounds := ss.rounds + 1)
    ensures Enabled(ss, a) && a == Continue ==>
              r == ss.(game := AdvanceStage(ss.game), showingResults := false)
    ensures a == SwitchLanguage ==> r == ss.(game := ToggleLanguage(ss.game))
    ensures a == SwitchAudio ==> r == ss.(game := ToggleAudio(ss.game))
  {
    if !Enabled(ss, a) then ss
    else match a
      case Choose(i) =>
        ss.(game := ApplyOffered(ss.game, i), showingResults := true, rounds := ss.rounds + 1)
      case Continue =>
        ss.(game := AdvanceStage(ss.game), showingResults := false)
      case SwitchLanguage =>
        ss.(game := ToggleLanguage(ss.game))
      case SwitchAudio =>
        ss.(game := ToggleAudio(ss.game))
  }

  /** One button press, as the screen is written. */
  function StepAsWritten(ss: Session, a: Action): (r: Session)
    ensures !Enabled(ss, a) ==> r == ss
    ensures r.initialCharacter == ss.initialCharacter
    ensures a != PlayAgain ==> r == StepCommon(ss, a)
    ensures a == PlayAgain && ss.game.gameOver ==>
              IsFresh(r.game) && r.game.character == ss.initialCharacter && r.rounds == 0
              && r.game.language == ss.game.language && r.game.audioEnabled == ss.game.audioEnabled
              && r.showingResults == ss.showingResults
  {
    if a == PlayAgain then (if Enabled(ss, a) then PlayAgainAsWritten(ss) else ss)
    else StepCommon(ss, a)
  }

  /** One button press, with the corrected Play Again. */
  function Step(ss: Session, a: Action): (r: Session)
    ensures !Enabled(ss, a) ==> r == ss
    ensures r.initialCharacter == ss.initialCharacter
    ensures a != PlayAgain ==> r == StepCommon(ss, a)
    ensures a == PlayAgain && ss.game.gameOver ==>
              IsFresh(r.game) && r.game.character == ss.initialCharacter && r.rounds == 0
              && r.game.language == ss.game.language && r.game.audioEnabled == ss.game.audioEnabled
              && !r.showingResults
  {
    if a == PlayAgain then (if Enabled(ss, a) then PlayAgainCorrected(ss) else ss)
    else StepCommon(ss, a)
  }

  /** A sequence of presses on the screen as written. The session's initial
      persona never changes, and presses of the two preference toggles alone
      leave the negotiation untouched. */
  function RunAsWritten(ss: Session, actions: seq<Action>): (r: Session)
    ensures r.initialCharacter == ss.initialCharacter
    ensures OnlyPreferences(actions) ==> SameNegotiation(r, ss)
    decreases |actions|
  {
    if |actions| == 0 then ss
    else
      var next := StepAsWritten(ss, actions[0]);
      assert OnlyPreferences(actions) ==> OnlyPreferences(actions[1..]) && SameNegotiation(next, ss);
      RunAsWritten(next, actions[1..])
  }

  /** A sequence of presses on the corrected screen, with the same facts. */
  function Run(ss: Session, actions: seq<Action>): (r: Session)
    ensures r.initialCharacter == ss.initialCharacter
    ensures OnlyPreferences(actions) ==> SameNegotiation(r, ss)
    decreases |actions|
  {
    if |actions| == 0 then ss
    else
      var next := Step(ss, actions[0]);
      assert OnlyPreferences(actions) ==> OnlyPreferences(actions[1..]) && SameNegotiation(next, ss);
      Run(next, actions[1..])
  }

  /** Every press is one of the two preference toggles. */
  predicate OnlyPreferences(actions: seq<Action>)
  {
    forall k | 0 <= k < |actions| :: actions[k] == SwitchLanguage || actions[k] == SwitchAudio
  }

  /** Two sessions agree on everything but the language and audio preferences. */
  predicate SameNegotiation(x: Session, y: Session)
  {
    x.(game := x.game.(language := y.game.language, audioEnabled := y.game.audioEnabled)) == y
  }

  // ---------------------------------------------------------------------------
  // Invariants over every trace
  // ---------------------------------------------------------------------------

  /** What holds of every session as the screen is written. */
  predicate SessionValid(ss: Session)
  {
    Valid(ss.game) && ss.game.character == ss.initialCharacter
  }

  lemma StepCommonKeepsValid(ss: Session, a: Action)
    requires a != PlayAgain && SessionValid(ss)
    ensures SessionValid(StepCommon(ss, a))
  {
    if Enabled(ss, a) && a.Continue? {
      AdvanceKeepsValid(ss.game);
    }
  }

  lemma StepAsWrittenKeepsValid(ss: Session, a: Action)
    requires SessionValid(ss)
    ensures SessionValid(StepAsWritten(ss, a))
  {
    if a != PlayAgain {
      StepCommonKeepsValid(ss, a);
    }
  }

  /** Every game the screen can produce satisfies the invariant: in particular
      a collapse is never reported as a deal, although `advanceStage` on its
      own does not guarantee it. */
  lemma {:induction false} RunAsWrittenKeepsValid(ss: Session, actions: seq<Action>)
    requires SessionValid(ss)
    ensures SessionValid(RunAsWritten(ss, actions))
    ensures RunAsWritten(ss, actions).initialCharacter == ss.initialCharacter
    ensures RunAsWritten(ss, actions).game.disastrousOutcome ==> !RunAsWritten(ss, actions).game.dealMade
    decreases |actions|
  {
    if |actions| > 0 {
      StepAsWrittenKeepsValid(ss, actions[0]);
      RunAsWrittenKeepsValid(StepAsWritten(ss, actions[0]), actions[1..]);
    }
  }

  /** The outcome of any finished game, from the first screen on: a collapse
      only at the final stage, otherwise the end-screen heading announces a
      deal exactly when the player's own score is at least 40 and the
      opponent's at least 30. */
  lemma FinishedGameOutcome(c: Character, actions: seq<Action>)
    ensures var g := RunAsWritten(NewSession(c), actions).game;
            && g.character == c
            && (g.disastrousOutcome ==> g.stage == 5 && EndHeading(g) == NegotiationsCollapsed)
            && (g.gameOver && !g.disastrousOutcome ==>
                  g.stage == 6 && (EndHeading(g) == DealSuccessfullyMade <==> DealReached(g)))
  {
    RunAsWrittenKeepsValid(NewSession(c), actions);
  }

  /** The corrected screen keeps, besides the game invariant, the round count
      in step with the stage: a running game at stage k has had exactly k - 1
      responses applied (k when the results panel is open), and a finished one
      exactly five. */
  predicate SessionValidCorrected(ss: Session)
  {
    && SessionValid(ss)
    && (!ss.game.gameOver ==> ss.rounds == ss.game.stage - 1 + (if ss.showingResults then 1 else 0))
    && (ss.game.gameOver ==> ss.rounds == 5)
    && (ss.game.gameOver && !ss.game.disastrousOutcome ==> !ss.showingResults)
  }

  lemma StepKeepsValidCorrected(ss: Session, a: Action)
    requires SessionValidCorrected(ss)
    ensures SessionValidCorrected(Step(ss, a))
  {
    if a != PlayAgain {
      StepCommonKeepsValid(ss, a);
      if Enabled(ss, a) && a.Choose? {
        OfferedOnlyWhilePlayable(ss.game, a.index);
      }
    }
  }

  /** With the corrected Play Again no stage is ever skipped: whatever the
      player presses, the stage of a running game counts the responses applied
      since the last reset. */
  lemma {:induction false} RunKeepsValidCorrected(ss: Session, actions: seq<Action>)
    requires SessionValidCorrected(ss)
    ensures SessionValidCorrected(Run(ss, actions))
    decreases |actions|
  {
    if |actions| > 0 {
      StepKeepsValidCorrected(ss, actions[0]);
      RunKeepsValidCorrected(Step(ss, actions[0]), actions[1..]);
    }
  }

  /** A new session satisfies the corrected invariant, so every game played
      on the corrected screen from its first screen keeps it. */
  lemma NewSessionValidCorrected(c: Character, actions: seq<Action>)
    ensures SessionValidCorrected(NewSession(c))
    ensures SessionValidCorrected(Run(NewSession(c), actions))
  {
    RunKeepsValidCorrected(NewSession(c), actions);
  }

  /** The game moves only forward between resets. */
  predicate Progresses(a: GameState, b: GameState)
  {
    && a.stage <= b.stage
    && a.character == b.character
    && (a.dealPoints.stabilityClause ==> b.dealPoints.stabilityClause)
    && (a.dealPoints.retaliationRights ==> b.dealPoints.retaliationRights)
    && (a.gameOver ==> b.(language := a.language, audioEnabled := a.audioEnabled) == a)
  }

  lemma StepProgresses(ss: Session, a: Action)
    requires a != PlayAgain
    ensures Progresses(ss.game, StepAsWritten(ss, a).game)
    ensures Progresses(ss.game, Step(ss, a).game)
  {
  }

  /** Until Play Again is pressed the stage never goes back, a clause once
      agreed stays agreed (no response revokes one), and a finished game
      stays exactly as it ended. */
  lemma {:induction false} RunProgresses(ss: Session, actions: seq<Action>)
    requires forall k | 0 <= k < |actions| :: actions[k] != PlayAgain
    ensures Progresses(ss.game, RunAsWritten(ss, actions).game)
    ensures RunAsWritten(ss, actions) == Run(ss, actions)
    decreases |actions|
  {
    if |actions| > 0 {
      StepProgresses(ss, actions[0]);
      RunProgresses(StepAsWritten(ss, actions[0]), actions[1..]);
    }
  }

  /** Between resets the end screen's strategy reading for Carney never gets
      worse: a game that has reached "stability only" cannot fall back to
      "unprotected", and "comprehensive" is final. */
  lemma StrategyNeverWorsens(ss: Session, actions: seq<Action>)
    requires forall k | 0 <= k < |actions| :: actions[k] != PlayAgain
    ensures StrategyRank(Strategy(ss.game)) <= StrategyRank(Strategy(Run(ss, actions).game))
  {
    RunProgresses(ss, actions);
  }

  // ---------------------------------------------------------------------------
  // The Play Again defect
  // ---------------------------------------------------------------------------

  /** Choosing the outburst opens the results panel and ends the game in the
      same click; the end screen then hides the panel but does not close it,
      and Play Again as written leaves it open on the new game, whose Continue
      button moves to stage 2 with no response applied. */
  lemma PlayAgainAsWrittenSkipsStageOne(ss: Session)
    requires SessionValid(ss) && ss.showingResults && ss.game.gameOver
    ensures var restarted := StepAsWritten(ss, PlayAgain);
            && Enabled(restarted, Continue)
            && var next := StepAsWritten(restarted, Continue);
               next.game.stage == 2 && next.rounds == 0 && !next.game.gameOver
               && next.game.trumpSatisfaction == 50 && next.game.carneySatisfaction == 50
  {
  }

  /** A concrete path into that situation: as Trump, take the first response
      at stages 1 to 4 and the outburst at stage 5, then press Play Again and
      Continue. */
  lemma OutburstThenPlayAgainAsWritten()
    ensures var played := RunAsWritten(NewSession(Trump),
              [Choose(0), Continue, Choose(0), Continue, Choose(0), Continue, Choose(0), Continue, Choose(3)]);
            && played.game.disastrousOutcome && played.showingResults
            && var next := StepAsWritten(StepAsWritten(played, PlayAgain), Continue);
               next.game.stage == 2 && next.rounds == 0 && !next.game.gameOver
  {
    var s0 := NewSession(Trump);
    var s1 := StepAsWritten(StepAsWritten(s0, Choose(0)), Continue);
    assert s1.game.stage == 2;
    var s2 := StepAsWritten(StepAsWritten(s1, Choose(0)), Continue);
    assert s2.game.stage == 3;
    var s3 := StepAsWritten(StepAsWritten(s2, Choose(0)), Continue);
    assert s3.game.stage == 4;
    var s4 := StepAsWritten(StepAsWritten(s3, Choose(0)), Continue);
    assert s4.game.stage == 5 && !s4.game.gameOver && !s4.showingResults;
    var s5 := StepAsWritten(s4, Choose(3));
    assert s5.game.disastrousOutcome && s5.showingResults && s5.game.gameOver;
    var acts := [Choose(0), Continue, Choose(0), Continue, Choose(0), Continue, Choose(0), Continue, Choose(3)];
    assert RunAsWritten(s0, acts) == s5 by {
      assert RunAsWritten(s0, acts) == RunAsWritten(s1, acts[2..]);
      assert RunAsWritten(s1, acts[2..]) == RunAsWritten(s2, acts[4..]);
      assert RunAsWritten(s2, acts[4..]) == RunAsWritten(s3, acts[6..]);
      assert RunAsWritten(s3, acts[6..]) == RunAsWritten(s4, acts[8..]);
    }
    PlayAgainAsWrittenSkipsStageOne(s5);
  }

  /** After the corrected Play Again the session is the one the game started
      in, apart from the two preferences. */
  lemma PlayAgainCorrectedRestarts(ss: Session)
    requires ss.game.gameOver
    ensures Step(ss, PlayAgain)
            == NewSession(ss.initialCharacter).(game := Initial(ss.initialCharacter).(
                 language := ss.game.language, audioEnabled := ss.game.audioEnabled))
    ensures !Enabled(Step(ss, PlayAgain), Continue)
  {
  }

  // ---------------------------------------------------------------------------
  // Complete games
  // ---------------------------------------------------------------------------

  /** A game played as a list of picks: each pick is a click on that response
      followed by Continue. */
  function Rounds(picks: seq<nat>): (actions: seq<Action>)
    ensures |actions| == 2 * |picks|
    ensures forall k | 0 <= k < |picks| :: actions[2 * k] == Choose(picks[k]) && actions[2 * k + 1] == Continue
  {
    if |picks| == 0 then [] else [Choose(picks[0]), Continue] + Rounds(picks[1..])
  }

  /** One full round with a response that does not end the game: the response's
      effects are applied, then the stage advances, and the panel is closed again. */
  lemma FullRound(ss: Session, i: nat, next: GameState)
    requires !ss.game.gameOver && !ss.showingResults && i < |Offered(ss.game)|
    requires !IsDisastrous(Offered(ss.game)[i].effects)
    requires Admissible(Offered(ss.game)[i].effects)
    requires AdvanceStage(MakeChoice(ss.game, Offered(ss.game)[i].effects)) == next
    ensures Step(Step(ss, Choose(i)), Continue) == ss.(game := next, rounds := ss.rounds + 1)
    ensures StepAsWritten(StepAsWritten(ss, Choose(i)), Continue) == ss.(game := next, rounds := ss.rounds + 1)
  {
  }

  lemma RunRounds(ss: Session, p: nat, ps: seq<nat>)
    ensures Run(ss, Rounds([p] + ps)) == Run(Step(Step(ss, Choose(p)), Continue), Rounds(ps))
    ensures RunAsWritten(ss, Rounds([p] + ps))
            == RunAsWritten(StepAsWritten(StepAsWritten(ss, Choose(p)), Continue), Rounds(ps))
  {
    assert ([p] + ps)[1..] == ps;
    var acts := Rounds([p] + ps);
    assert acts == [Choose(p), Continue] + Rounds(ps);
    assert acts[1..][1..] == Rounds(ps);
  }

  /** As Trump, taking the first response at every stage ends in a deal with
      steel tariffs removed and the dairy market fully open. */
  lemma TrumpFirstResponses()
    ensures var g := Run(NewSession(Trump), Rounds([0, 0, 0, 0, 0])).game;
            && g.gameOver && g.dealMade && g.stage == 6
            && g.trumpSatisfaction == 75 && g.carneySatisfaction == 50
            && SteelTariffLabel(g.dealPoints.steelTariffs) == CompletelyRemoved
            && DairyAccessLabel(g.dealPoints.dairyAccess) == FullyOpen
  {
    var s0 := NewSession(Trump);
    var g1 := GameState(Trump, 2, 55, 40, DealPoints(100, 0, false, false), false, false, false, English, false);
    var g2 := g1.(stage := 3, trumpSatisfaction := 60, dealPoints := DealPoints(100, 15, false, false));
    var g3 := g2.(stage := 4, trumpSatisfaction := 70, carneySatisfaction := 35);
    var g4 := g3.(stage := 5, trumpSatisfaction := 65, carneySatisfaction := 50,
                  dealPoints := DealPoints(60, 15, false, false));
    var g5 := g4.(stage := 6, trumpSatisfaction := 75, dealPoints := DealPoints(0, 90, false, false),
                  gameOver := true, dealMade := true);
    FullRound(s0, 0, g1);
    var s1 := s0.(game := g1, rounds := 1);
    FullRound(s1, 0, g2);
    var s2 := s1.(game := g2, rounds := 2);
    FullRound(s2, 0, g3);
    var s3 := s2.(game := g3, rounds := 3);
    FullRound(s3, 0, g4);
    var s4 := s3.(game := g4, rounds := 4);
    FullRound(s4, 0, g5);
    RunRounds(s0, 0, [0, 0, 0, 0]);
    RunRounds(s1, 0, [0, 0, 0]);
    RunRounds(s2, 0, [0, 0]);
    RunRounds(s3, 0, [0]);
    RunRounds(s4, 0, []);
  }

  /** As Trump, the hardest line at every stage drives Carney's score down to
      10 and the negotiation fails although Trump's own score is full. */
  lemma TrumpHardLineFails()
    ensures var g := Run(NewSession(Trump), Rounds([2, 2, 0, 1, 0])).game;
            && g.gameOver && !g.dealMade && !g.disastrousOutcome
            && g.trumpSatisfaction == 100 && g.carneySatisfaction == 10
            && EndHeading(g) == NegotiationsFailed
  {
    var s0 := NewSession(Trump);
    var g1 := GameState(Trump, 2, 60, 35, DealPoints(100, 0, false, false), false, false, false, English, false);
    var g2 := g1.(stage := 3, trumpSatisfaction := 70, carneySatisfaction := 25);
    var g3 := g2.(stage := 4, trumpSatisfaction := 80, carneySatisfaction := 20);
    var g4 := g3.(stage := 5, trumpSatisfaction := 90, carneySatisfaction := 10);
    var g5 := g4.(stage := 6, trumpSatisfaction := 100, dealPoints := DealPoints(0, 75, false, false),
                  gameOver := true, dealMade := false);
    FullRound(s0, 2, g1);
    var s1 := s0.(game := g1, rounds := 1);
    FullRound(s1, 2, g2);
    var s2 := s1.(game := g2, rounds := 2);
    FullRound(s2, 0, g3);
    var s3 := s2.(game := g3, rounds := 3);
    FullRound(s3, 1, g4);
    var s4 := s3.(game := g4, rounds := 4);
    FullRound(s4, 0, g5);
    RunRounds(s0, 2, [2, 0, 1, 0]);
    RunRounds(s1, 2, [0, 1, 0]);
    RunRounds(s2, 0, [1, 0]);
    RunRounds(s3, 1, [0]);
    RunRounds(s4, 0, []);
  }

  /** As Carney, securing retaliation rights early and both clauses at the end
      reaches the comprehensive strategy; the last response pushes Carney's
      score past 100 and the tariffs below 0, and both are clamped. */
  lemma CarneyComprehensiveDeal()
    ensures var g := Run(NewSession(Carney), Rounds([2, 0, 2, 0, 2])).game;
            && g.gameOver && g.dealMade
            && g.carneySatisfaction == 100 && g.trumpSatisfaction == 70
            && g.dealPoints == DealPoints(0, 45, true, true)
            && Strategy(g) == CarneyComprehensive
  {
    var s0 := NewSession(Carney);
    var g1 := GameState(Carney, 2, 45, 60, DealPoints(100, 0, false, true), false, false, false, English, false);
    var g2 := g1.(stage := 3, carneySatisfaction := 70, dealPoints := DealPoints(85, 0, false, true));
    var g3 := g2.(stage := 4, trumpSatisfaction := 55, carneySatisfaction := 80,
                  dealPoints := DealPoints(60, 0, true, true));
    var g4 := g3.(stage := 5, trumpSatisfaction := 60, carneySatisfaction := 90,
                  dealPoints := DealPoints(30, 0, true, true));
    var g5 := g4.(stage := 6, trumpSatisfaction := 70, carneySatisfaction := 100,
                  dealPoints := DealPoints(0, 45, true, true), gameOver := true, dealMade := true);
    FullRound(s0, 2, g1);
    var s1 := s0.(game := g1, rounds := 1);
    FullRound(s1, 0, g2);
    var s2 := s1.(game := g2, rounds := 2);
    FullRound(s2, 2, g3);
    var s3 := s2.(game := g3, rounds := 3);
    FullRound(s3, 0, g4);
    var s4 := s3.(game := g4, rounds := 4);
    FullRound(s4, 2, g5);
    RunRounds(s0, 2, [0, 2, 0, 2]);
    RunRounds(s1, 0, [2, 0, 2]);
    RunRounds(s2, 2, [0, 2]);
    RunRounds(s3, 0, [2]);
    RunRounds(s4, 2, []);
  }
}
