/** The client game state, the player intents and the engine events. */
module GameState {
  import opened Wrappers
  import opened Hex

  /** An optional, nullable record field: missing, explicitly null, or holding a value. */
  datatype Field<T> = Absent | Null | Present(value: T)

  /** A nullable payload (`T | null`) as a field value. */
  function FromNullable<T>(v: Option<T>): (f: Field<T>)
    ensures f != Absent
    ensures f.Present? <==> v.Some?
  {
    match v
    case None => Null
    case Some(x) => Present(x)
  }

  datatype Phase = Setup | Planning | Reveal | Resolve | Complete

  datatype AbilityDeckState = AbilityDeckState(drawPile: seq<string>, discardPile: seq<string>)

  datatype MovementState = MovementState(selectedHex: Field<Axial>, selectedFrameIndex: Field<int>)

  datatype CharacterState = CharacterState(id: string, ownerId: string, position: Axial, facing: Option<int>)

  datatype PlayerState = PlayerState(id: string, name: string, hand: seq<string>, characters: seq<string>)

  datatype Selection = Selection(selectedHex: Field<Axial>, selectedCardId: Field<string>, selectedFrameIndex: Field<int>)

  datatype State = State(
    id: string,
    phase: Phase,
    activePlayerId: Option<string>,
    players: seq<PlayerState>,
    characters: seq<CharacterState>,
    abilityDeck: AbilityDeckState,
    movement: Option<MovementState>,
    selection: Option<Selection>)

  datatype GameIntent =
    | SelectHex(playerId: string, hex: Option<Axial>)
    | SelectCard(playerId: string, cardId: Option<string>)
    | SelectFrame(playerId: string, frameIndex: Option<int>)
    | SubmitProgram(playerId: string, programCardId: string, programFrameIndex: Option<int>)
    | EndTurn(playerId: string)

  datatype GameEvent =
    | ProgramSubmitted(playerId: string)
    | RoundStarted(frameIndex: int)
    | StepBegan(frameIndex: int, playerId: string)
    | StepConfirmed(frameIndex: int, playerId: string)
    | FrameAdvanced(frameIndex: int)
    | RoundEnded
    | Info(msg: Option<string>, at: Option<int>)

  /** What `applyIntent` and `resolveNextStep` return. */
  datatype Transition = Transition(state: State, events: seq<GameEvent>)
}
