/**
 * The intent reducer: the three selection intents update one or two fields
 * of the selection record; every other intent leaves the state as it was.
 */
module Reducer {
  import opened Wrappers
  import opened Hex
  import opened GameState

  /** `...state.selection`: spreading a missing selection yields an empty record. */
  function SpreadSelection(state: State): Selection
  {
    match state.selection
    case None => Selection(Absent, Absent, Absent)
    case Some(sel) => sel
  }

  /** Everything but the selection. */
  function OutsideSelection(state: State): State
  {
    state.(selection := None)
  }

  /** `applyIntent`. */
  function ApplyIntent(state: State, intent: GameIntent): (t: Transition)
    ensures t.events == []
    ensures OutsideSelection(t.state) == OutsideSelection(state)
    ensures intent.SelectHex? ==> t.state.selection == Some(SpreadSelection(state).(selectedHex := FromNullable(intent.hex)))
    ensures intent.SelectCard? ==>
      t.state.selection == Some(SpreadSelection(state).(selectedCardId := FromNullable(intent.cardId), selectedFrameIndex := Null))
    ensures intent.SelectFrame? ==>
      t.state.selection == Some(SpreadSelection(state).(selectedFrameIndex := FromNullable(intent.frameIndex)))
    ensures intent.SubmitProgram? || intent.EndTurn? ==> t.state == state
  {
    match intent
    case SelectHex(_, hex) =>
      Transition(state.(selection := Some(SpreadSelection(state).(selectedHex := FromNullable(hex)))), [])
    case SelectCard(_, cardId) =>
      Transition(state.(selection := Some(SpreadSelection(state).(selectedCardId := FromNullable(cardId), selectedFrameIndex := Null))), [])
    case SelectFrame(_, frameIndex) =>
      Transition(state.(selection := Some(SpreadSelection(state).(selectedFrameIndex := FromNullable(frameIndex)))), [])
    case _ => Transition(state, [])
  }

  /** SELECT_HEX sets the selected cell and nothing else. */
  lemma SelectHexChangesOnlyHex(state: State, playerId: string, hex: Option<Axial>)
    ensures var after := ApplyIntent(state, SelectHex(playerId, hex)).state;
      && after.selection.Some?
      && after.selection.value.selectedHex == FromNullable(hex)
      && after.selection.value.selectedCardId == SpreadSelection(state).selectedCardId
      && after.selection.value.selectedFrameIndex == SpreadSelection(state).selectedFrameIndex
      && OutsideSelection(after) == OutsideSelection(state)
  {
  }

  /** SELECT_CARD sets the card, clears the frame to null and keeps the cell. */
  lemma SelectCardResetsFrame(state: State, playerId: string, cardId: Option<string>)
    ensures var after := ApplyIntent(state, SelectCard(playerId, cardId)).state;
      && after.selection.Some?
      && after.selection.value.selectedCardId == FromNullable(cardId)
      && after.selection.value.selectedFrameIndex == Null
      && after.selection.value.selectedHex == SpreadSelection(state).selectedHex
      && OutsideSelection(after) == OutsideSelection(state)
  {
  }

  /** SELECT_FRAME sets the frame and nothing else. */
  lemma SelectFrameChangesOnlyFrame(state: State, playerId: string, frameIndex: Option<int>)
    ensures var after := ApplyIntent(state, SelectFrame(playerId, frameIndex)).state;
      && after.selection.Some?
      && after.selection.value.selectedFrameIndex == FromNullable(frameIndex)
      && after.selection.value.selectedHex == SpreadSelection(state).selectedHex
      && after.selection.value.selectedCardId == SpreadSelection(state).selectedCardId
      && OutsideSelection(after) == OutsideSelection(state)
  {
  }

  /** A missing selection becomes a record holding only what the intent set. */
  lemma AbsentSelectionGetsOnlyTheSetField(state: State, intent: GameIntent)
    requires state.selection.None?
    ensures intent.SelectHex? ==> ApplyIntent(state, intent).state.selection == Some(Selection(FromNullable(intent.hex), Absent, Absent))
    ensures intent.SelectCard? ==> ApplyIntent(state, intent).state.selection == Some(Selection(Absent, FromNullable(intent.cardId), Null))
    ensures intent.SelectFrame? ==> ApplyIntent(state, intent).state.selection == Some(Selection(Absent, Absent, FromNullable(intent.frameIndex)))
    ensures intent.SubmitProgram? || intent.EndTurn? ==> ApplyIntent(state, intent).state.selection.None?
  {
  }

  /** Applying an intent a second time changes nothing more. */
  lemma ApplyIntentIdempotent(state: State, intent: GameIntent)
    ensures var once := ApplyIntent(state, intent);
      ApplyIntent(once.state, intent) == once
  {
  }
}
