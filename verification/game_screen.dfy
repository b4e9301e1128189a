/** The pure content of components/game-screen.tsx: the language selector, the
    dialogue lookup, the choice table with its effects, and the classifiers the
    end screen uses to describe a finished game. Prose is represented by opaque
    tokens naming the line it stands for; every effect is transcribed exactly. */
module GameScreen {

  import opened Wrappers
  import opened GameContext

  // ---------------------------------------------------------------------------
  // Language selection
  // ---------------------------------------------------------------------------

  /** `translate`: the English alternative when the display language is English, else the Korean one. */
  function Translate<T>(language: Language, english: T, korean: T): (r: T)
    ensures language == English ==> r == english
    ensures language == Korean ==> r == korean
  {
    if language == English then english else korean
  }

  /** Toggling the display language switches every translated string to its
      other alternative. */
  lemma TranslateAfterToggle<T>(s: GameState, english: T, korean: T)
    ensures Translate(ToggleLanguage(s).language, english, korean) == Translate(s.language, korean, english)
  {
  }

  // ---------------------------------------------------------------------------
  // Dialogue
  // ---------------------------------------------------------------------------

  datatype Speaker = Player | Opponent

  /** A dialogue string: the empty string, or the line authored for a persona at
      a stage in one language. */
  datatype Line = Silent | Speech(persona: Character, stage: int, language: Language)

  function OtherPersona(c: Character): Character
  {
    if c == Trump then Carney else Trump
  }

  function OtherSpeaker(sp: Speaker): Speaker
  {
    if sp == Player then Opponent else Player
  }

  /** The persona whose words fill a slot: the player's own persona in the
      player slot, the other one in the opponent slot. */
  function SpeakingPersona(character: Character, speaker: Speaker): Character
  {
    if speaker == Player then character else OtherPersona(character)
  }

  predicate IsTrumpSpeaking(character: Character, speaker: Speaker)
  {
    (character == Trump && speaker == Player) || (character == Carney && speaker == Opponent)
  }

  predicate IsPlayableStage(stage: int)
  {
    1 <= stage <= 5
  }

  /** The line a persona speaks at a stage; stages 1 to 5 each have one, any
      other stage gives the empty string. */
  function PersonaLine(trumpSpeaking: bool, stage: int, language: Language): Line
  {
    var persona := if trumpSpeaking then Trump else Carney;
    match stage
    case 1 => Speech(persona, 1, language)
    case 2 => Speech(persona, 2, language)
    case 3 => Speech(persona, 3, language)
    case 4 => Speech(persona, 4, language)
    case 5 => Speech(persona, 5, language)
    case _ => Silent
  }

  /** `getDialogue`: the English line for a slot. */
  function GetDialogue(stage: int, character: Character, speaker: Speaker): (r: Line)
    ensures IsPlayableStage(stage) ==> r == Speech(SpeakingPersona(character, speaker), stage, English)
    ensures !IsPlayableStage(stage) ==> r == Silent
  {
    PersonaLine(IsTrumpSpeaking(character, speaker), stage, English)
  }

  /** `getKoreanDialogue`: the Korean line for a slot. */
  function GetKoreanDialogue(stage: int, character: Character, speaker: Speaker): (r: Line)
    ensures IsPlayableStage(stage) ==> r == Speech(SpeakingPersona(character, speaker), stage, Korean)
    ensures !IsPlayableStage(stage) ==> r == Silent
  {
    PersonaLine(IsTrumpSpeaking(character, speaker), stage, Korean)
  }

  /** The two slots are swapped by swapping the persona: playing Trump, the
      player slot shows what the opponent slot shows when playing Carney, and
      the other way round, in both languages and at every stage. */
  lemma DialogueSlotSwap(stage: int, character: Character, speaker: Speaker)
    ensures GetDialogue(stage, character, speaker)
            == GetDialogue(stage, OtherPersona(character), OtherSpeaker(speaker))
    ensures GetKoreanDialogue(stage, character, speaker)
            == GetKoreanDialogue(stage, OtherPersona(character), OtherSpeaker(speaker))
  {
  }

  /** The two slots of a stage never show the same persona, and the Korean line
      is the translation of the English one. */
  lemma DialogueSlotsDiffer(stage: int, character: Character)
    requires IsPlayableStage(stage)
    ensures GetDialogue(stage, character, Player).persona == character
    ensures GetDialogue(stage, character, Opponent).persona != character
    ensures GetKoreanDialogue(stage, character, Player)
            == GetDialogue(stage, character, Player).(language := Korean)
  {
  }

  // ---------------------------------------------------------------------------
  // The choice table
  // ---------------------------------------------------------------------------

  /** The text of a choice: the line authored for a persona at a stage and position. */
  datatype ChoiceText = ChoiceText(persona: Character, stage: int, index: nat, language: Language)

  datatype Choice = Choice(text: ChoiceText, effects: Effect)

  /** The only entry with the disastrous flag, present once per persona. */
  const Outburst: Effect := NoEffect.(disastrousOutcome := Some(true))

  /** `getChoices`: the responses offered at a stage, in display order. For
      both personas and both languages the table has the shape the screen
      relies on, the entry at position i carries the text authored for that
      position, and every entry has what `makeChoice` reads: the disastrous
      flag, or both satisfaction deltas. */
  function GetChoices(stage: int, character: Character, language: Language): (r: seq<Choice>)
    ensures |r| == ChoiceCount(stage)
    ensures forall i | 0 <= i < |r| :: r[i].text == ChoiceText(character, stage, i, language)
    ensures forall i | 0 <= i < |r| :: Admissible(r[i].effects)
  {
    var T := (i: nat) => ChoiceText(character, stage, i, language);
    if character == Trump then
      match stage
      case 1 => [
        Choice(T(0), Deltas(5, -10).(dairyAccessEffect := Some(0))),
        Choice(T(1), Deltas(0, 5).(dairyAccessEffect := Some(10))),
        Choice(T(2), Deltas(10, -15).(steelTariffsEffect := Some(0)))]
      case 2 => [
        Choice(T(0), Deltas(5, 0).(dairyAccessEffect := Some(15))),
        Choice(T(1), Deltas(-5, 10).(steelTariffsEffect := Some(-20), dairyAccessEffect := Some(20))),
        Choice(T(2), Deltas(10, -10).(steelTariffsEffect := Some(0), dairyAccessEffect := Some(0)))]
      case 3 => [
        Choice(T(0), Deltas(10, -5).(steelTariffsEffect := Some(0))),
        Choice(T(1), Deltas(0, 15).(steelTariffsEffect := Some(-30), dairyAccessEffect := Some(15),
                                    stabilityClauseEffect := Some(true))),
        Choice(T(2), Deltas(5, 5).(dairyAccessEffect := Some(25)))]
      case 4 => [
        Choice(T(0), Deltas(-5, 15).(steelTariffsEffect := Some(-40))),
        Choice(T(1), Deltas(10, -10).(steelTariffsEffect := Some(0))),
        Choice(T(2), Deltas(5, 5).(steelTariffsEffect := Some(-50), dairyAccessEffect := Some(30)))]
      case 5 => [
        Choice(T(0), Deltas(10, 0).(steelTariffsEffect := Some(-100), dairyAccessEffect := Some(75))),
        Choice(T(1), Deltas(15, 5).(steelTariffsEffect := Some(-70), dairyAccessEffect := Some(55))),
        Choice(T(2), Deltas(20, 10).(steelTariffsEffect := Some(-70), dairyAccessEffect := Some(60),
                                     stabilityClauseEffect := Some(true))),
        Choice(T(3), Outburst)]
      case _ => []
    else
      match stage
      case 1 => [
        Choice(T(0), Deltas(5, 5).(steelTariffsEffect := Some(-10))),
        Choice(T(1), Deltas(-10, 10).(steelTariffsEffect := Some(0))),
        Choice(T(2), Deltas(-5, 10).(retaliationRightsEffect := Some(true)))]
      case 2 => [
        Choice(T(0), Deltas(0, 10).(steelTariffsEffect := Some(-15))),
        Choice(T(1), Deltas(10, 5).(steelTariffsEffect := Some(-20), dairyAccessEffect := Some(10))),
        Choice(T(2), Deltas(5, 5).(steelTariffsEffect := Some(-10)))]
      case 3 => [
        Choice(T(0), Deltas(-5, 10).(steelTariffsEffect := Some(-10))),
        Choice(T(1), Deltas(-10, 5).(retaliationRightsEffect := Some(true))),
        Choice(T(2), Deltas(10, 10).(stabilityClauseEffect := Some(true), steelTariffsEffect := Some(-25)))]
      case 4 => [
        Choice(T(0), Deltas(5, 10).(steelTariffsEffect := Some(-30))),
        Choice(T(1), Deltas(0, 15).(retaliationRightsEffect := Some(true))),
        Choice(T(2), Deltas(15, 5).(steelTariffsEffect := Some(-60), dairyAccessEffect := Some(20)))]
      case 5 => [
        Choice(T(0), Deltas(10, 5).(steelTariffsEffect := Some(-100), dairyAccessEffect := Some(50))),
        Choice(T(1), Deltas(0, 10).(stabilityClauseEffect := Some(true), steelTariffsEffect := Some(-60),
                                    dairyAccessEffect := Some(30))),
        Choice(T(2), Deltas(10, 20).(steelTariffsEffect := Some(-90), dairyAccessEffect := Some(45),
                                     stabilityClauseEffect := Some(true), retaliationRightsEffect := Some(true))),
        Choice(T(3), Outburst)]
      case _ => []
  }

  /** How many responses a stage offers: three at stages 1 to 4, four at the
      final stage, none outside the game. */
  function ChoiceCount(stage: int): nat
  {
    if 1 <= stage <= 4 then 3 else if stage == 5 then 4 else 0
  }

  /** The last response of the final stage is the only disastrous entry of the
      whole table, and it carries nothing but the disastrous flag. */
  lemma OnlyFinalOutburstIsDisastrous(stage: int, character: Character, language: Language, i: nat)
    requires i < |GetChoices(stage, character, language)|
    ensures IsDisastrous(GetChoices(stage, character, language)[i].effects) <==> stage == 5 && i == 3
    ensures stage == 5 && i == 3 ==> GetChoices(stage, character, language)[i].effects == Outburst
  {
  }

  /** Every entry has what `makeChoice` reads: the non-disastrous ones carry
      both satisfaction deltas, and neither clause is ever set to false. The
      two outburst entries carry only the disastrous flag, so they do not match
      the declared parameter type, whose satisfaction deltas are required; this
      is harmless because the disastrous branch returns before the deltas are
      read. */
  lemma ChoicesAdmissible(stage: int, character: Character, language: Language, i: nat)
    requires i < |GetChoices(stage, character, language)|
    ensures Admissible(GetChoices(stage, character, language)[i].effects)
    ensures !IsDisastrous(GetChoices(stage, character, language)[i].effects) ==>
              GetChoices(stage, character, language)[i].effects.trumpEffect.Some? &&
              GetChoices(stage, character, language)[i].effects.carneyEffect.Some?
    ensures GetChoices(stage, character, language)[i].effects.stabilityClauseEffect != Some(false)
    ensures GetChoices(stage, character, language)[i].effects.retaliationRightsEffect != Some(false)
  {
  }

  /** The display language changes the text of a response and nothing else. */
  lemma LanguageOnlyChangesText(stage: int, character: Character)
    ensures |GetChoices(stage, character, English)| == |GetChoices(stage, character, Korean)|
    ensures forall i | 0 <= i < |GetChoices(stage, character, English)| ::
              && GetChoices(stage, character, English)[i].effects == GetChoices(stage, character, Korean)[i].effects
              && GetChoices(stage, character, Korean)[i].text
                 == GetChoices(stage, character, English)[i].text.(language := Korean)
  {
  }

  // ---------------------------------------------------------------------------
  // End-screen classifiers
  // ---------------------------------------------------------------------------

  datatype Heading = NegotiationsCollapsed | DealSuccessfullyMade | NegotiationsFailed

  /** The heading of the end screen: a collapse outranks the deal flag. */
  function EndHeading(s: GameState): (r: Heading)
    ensures r == NegotiationsCollapsed <==> s.disastrousOutcome
    ensures r == DealSuccessfullyMade <==> !s.disastrousOutcome && s.dealMade
    ensures r == NegotiationsFailed <==> !s.disastrousOutcome && !s.dealMade
  {
    if s.disastrousOutcome then NegotiationsCollapsed
    else if s.dealMade then DealSuccessfullyMade
    else NegotiationsFailed
  }

  datatype SteelLabel = CompletelyRemoved | SignificantlyReduced | PartiallyReduced | Maintained

  /** The wording for the final steel tariff level. */
  function SteelTariffLabel(steelTariffs: int): (r: SteelLabel)
    ensures r == CompletelyRemoved <==> steelTariffs == 0
    ensures r == SignificantlyReduced <==> steelTariffs != 0 && steelTariffs < 50
    ensures r == PartiallyReduced <==> 50 <= steelTariffs < 100
    ensures r == Maintained <==> steelTariffs >= 100
  {
    if steelTariffs == 0 then CompletelyRemoved
    else if steelTariffs < 50 then SignificantlyReduced
    else if steelTariffs < 100 then PartiallyReduced
    else Maintained
  }

  /** Position of a steel label on the scale from removed to maintained. */
  function SteelRank(l: SteelLabel): nat
  {
    match l
    case CompletelyRemoved => 0
    case SignificantlyReduced => 1
    case PartiallyReduced => 2
    case Maintained => 3
  }

  /** On the clamped range the steel wording never describes a higher tariff
      as more reduced than a lower one. */
  lemma SteelLabelMonotone(t1: int, t2: int)
    requires 0 <= t1 <= t2 <= 100
    ensures SteelRank(SteelTariffLabel(t1)) <= SteelRank(SteelTariffLabel(t2))
  {
  }

  datatype DairyLabel = FullyOpen | SignificantlyIncreased | SlightlyIncreased | Unchanged

  /** The wording for the final dairy access level. */
  function DairyAccessLabel(dairyAccess: int): (r: DairyLabel)
    ensures r == FullyOpen <==> dairyAccess > 75
    ensures r == SignificantlyIncreased <==> 50 < dairyAccess <= 75
    ensures r == SlightlyIncreased <==> 0 < dairyAccess <= 50
    ensures r == Unchanged <==> dairyAccess <= 0
  {
    if dairyAccess > 75 then FullyOpen
    else if dairyAccess > 50 then SignificantlyIncreased
    else if dairyAccess > 0 then SlightlyIncreased
    else Unchanged
  }

  /** Position of a dairy label on the scale from unchanged to fully open. */
  function DairyRank(l: DairyLabel): nat
  {
    match l
    case Unchanged => 0
    case SlightlyIncreased => 1
    case SignificantlyIncreased => 2
    case FullyOpen => 3
  }

  /** More dairy access never reads as less opening. */
  lemma DairyLabelMonotone(d1: int, d2: int)
    requires d1 <= d2
    ensures DairyRank(DairyAccessLabel(d1)) <= DairyRank(DairyAccessLabel(d2))
  {
  }

  datatype StrategyAnalysis = TrumpLeverage | CarneyComprehensive | CarneyStabilityOnly | CarneyUnprotected

  /** The strategy paragraph: one fixed text for Trump; for Carney, chosen by
      the two clauses with the stability clause deciding when only one is held. */
  function Strategy(s: GameState): (r: StrategyAnalysis)
    ensures r == TrumpLeverage <==> s.character == Trump
    ensures r == CarneyComprehensive <==>
              s.character == Carney && s.dealPoints.stabilityClause && s.dealPoints.retaliationRights
    ensures r == CarneyStabilityOnly <==>
              s.character == Carney && s.dealPoints.stabilityClause && !s.dealPoints.retaliationRights
    ensures r == CarneyUnprotected <==> s.character == Carney && !s.dealPoints.stabilityClause
  {
    match s.character
    case Trump => TrumpLeverage
    case Carney =>
      if s.dealPoints.stabilityClause && s.dealPoints.retaliationRights then CarneyComprehensive
      else if s.dealPoints.stabilityClause then CarneyStabilityOnly
      else CarneyUnprotected
  }

  /** How much protection a strategy reading reports: none without the
      stability clause, more with it, most with both clauses. */
  function StrategyRank(r: StrategyAnalysis): nat
  {
    match r
    case CarneyComprehensive => 2
    case CarneyStabilityOnly => 1
    case _ => 0
  }
}
