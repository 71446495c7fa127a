/** The resolver as it stands: initiative is player order and stepping does nothing. */
module Resolver {
  import opened GameState

  /** `getInitiativeOrder`: the players' ids in list order. */
  function GetInitiativeOrder(state: State): (ids: seq<string>)
    ensures |ids| == |state.players|
    ensures forall k :: 0 <= k < |ids| ==> ids[k] == state.players[k].id
  {
    seq(|state.players|, k requires 0 <= k < |state.players| => state.players[k].id)
  }

  /** The order is a function of the player list alone. */
  lemma InitiativeOrderDependsOnPlayersOnly(a: State, b: State)
    requires a.players == b.players
    ensures GetInitiativeOrder(a) == GetInitiativeOrder(b)
  {
  }

  /** `resolveNextStep`: the state unchanged and no events. */
  function ResolveNextStep(state: State): (t: Transition)
    ensures t.state == state
    ensures t.events == []
  {
    Transition(state, [])
  }
}
