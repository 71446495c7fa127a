/**
 * The client-side game session: the local player's view of who is in the
 * game, held by a provider whose `session` is replaced on every change.
 */
module GameSession {
  import opened Wrappers

  datatype Player = Player(id: string, name: string, characterId: Option<string>)

  datatype Session = Session(gameId: string, players: seq<Player>, localPlayerId: string)

  /** `players.findIndex(p => p.id === id)`: the first match, or -1. */
  function FindIndex(players: seq<Player>, id: string): (i: int)
    ensures -1 <= i < |players|
    ensures i == -1 <==> forall k :: 0 <= k < |players| ==> players[k].id != id
    ensures i >= 0 ==> players[i].id == id && forall k :: 0 <= k < i ==> players[k].id != id
  {
    if players == [] then -1
    else if players[0].id == id then 0
    else
      var rest := FindIndex(players[1..], id);
      if rest == -1 then -1 else rest + 1
  }

  /** `upsertPlayer`: append an unseen player, otherwise overwrite the first entry with its id in a copy. */
  function UpsertPlayer(players: seq<Player>, nextPlayer: Player): (r: seq<Player>)
    ensures nextPlayer in r
  {
    var existingIndex := FindIndex(players, nextPlayer.id);
    if existingIndex == -1 then
      assert (players + [nextPlayer])[|players|] == nextPlayer;
      players + [nextPlayer]
    else
      assert players[existingIndex := nextPlayer][existingIndex] == nextPlayer;
      players[existingIndex := nextPlayer]
  }

  /** An unseen id is appended: one more entry, the earlier ones untouched. */
  lemma UpsertUnseenAppends(players: seq<Player>, nextPlayer: Player)
    requires forall k :: 0 <= k < |players| ==> players[k].id != nextPlayer.id
    ensures var r := UpsertPlayer(players, nextPlayer);
      |r| == |players| + 1 && r[..|players|] == players && r[|players|] == nextPlayer
  {
  }

  /** A known id replaces its first entry in place; the length and every other entry stay. */
  lemma UpsertKnownReplacesFirst(players: seq<Player>, nextPlayer: Player, i: int)
    requires 0 <= i < |players| && players[i].id == nextPlayer.id
    requires forall k :: 0 <= k < i ==> players[k].id != nextPlayer.id
    ensures var r := UpsertPlayer(players, nextPlayer);
      && |r| == |players| && r[i] == nextPlayer
      && forall k :: 0 <= k < |players| && k != i ==> r[k] == players[k]
  {
  }

  /** Upserting the same player twice is upserting it once. */
  lemma UpsertIdempotent(players: seq<Player>, nextPlayer: Player)
    ensures UpsertPlayer(UpsertPlayer(players, nextPlayer), nextPlayer) == UpsertPlayer(players, nextPlayer)
  {
    var once := UpsertPlayer(players, nextPlayer);
    var i := FindIndex(players, nextPlayer.id);
    if i == -1 {
      assert FindIndex(once, nextPlayer.id) == |players|;
    } else {
      assert forall k :: 0 <= k < i ==> once[k] == players[k];
      assert once[i] == nextPlayer;
    }
  }

  /** The `players.map` of `setCharacter`: matching players get the character, the others stay. */
  function SetCharacterIn(players: seq<Player>, playerId: string, characterId: string): (r: seq<Player>)
    ensures |r| == |players|
    ensures forall k :: 0 <= k < |r| ==> r[k].id == players[k].id && r[k].name == players[k].name
    ensures forall k :: 0 <= k < |r| ==>
      r[k].characterId == (if players[k].id == playerId then Some(characterId) else players[k].characterId)
  {
    seq(|players|, k requires 0 <= k < |players| =>
      if players[k].id == playerId then players[k].(characterId := Some(characterId)) else players[k])
  }

  /** The local id `joinGame` uses: P2 when there is no session or the local player was P1, else the local id. */
  function JoinPlayerId(session: Option<Session>): (id: string)
    ensures session.None? ==> id == "P2"
    ensures session.Some? && session.value.localPlayerId == "P1" ==> id == "P2"
    ensures session.Some? && session.value.localPlayerId != "P1" ==> id == session.value.localPlayerId
  {
    var localPlayerId := if session.Some? then session.value.localPlayerId else "P2";
    if localPlayerId == "P1" then "P2" else localPlayerId
  }

  function PlayersOf(session: Option<Session>): seq<Player>
  {
    if session.Some? then session.value.players else []
  }

  /** The provider component's state: the session, replaced as a whole on every change. */
  class GameSessionProvider {
    var session: Option<Session>

    constructor()
      ensures session.None?
    {
      session := None;
    }

    /** `createGame`; `gameId` stands for the random id the source draws. */
    method CreateGame(playerName: string, gameId: string) returns (nextSession: Session)
      modifies this
      ensures nextSession.gameId == gameId
      ensures nextSession.localPlayerId == "P1"
      ensures nextSession.players == [Player("P1", playerName, None)]
      ensures session == Some(nextSession)
    {
      nextSession := Session(gameId, [Player("P1", playerName, None)], "P1");
      session := Some(nextSession);
    }

    /** `joinGame`: the local player joins under P2 (or its earlier non-P1 id) and is upserted. */
    method JoinGame(gameId: string, playerName: string) returns (nextSession: Session)
      modifies this
      ensures nextSession.gameId == gameId
      ensures nextSession.localPlayerId == JoinPlayerId(old(session))
      ensures nextSession.players == UpsertPlayer(PlayersOf(old(session)), Player(JoinPlayerId(old(session)), playerName, None))
      ensures session == Some(nextSession)
    {
      var localPlayerId := if session.Some? then session.value.localPlayerId else "P2";
      var playerId := if localPlayerId == "P1" then "P2" else localPlayerId;
      var players := if session.Some? then session.value.players else [];
      nextSession := Session(gameId, UpsertPlayer(players, Player(playerId, playerName, None)), playerId);
      session := Some(nextSession);
    }

    /** `setCharacter`: no session stays no session; otherwise only the players list changes. */
    method SetCharacter(playerId: string, characterId: string)
      modifies this
      ensures old(session).None? ==> session.None?
      ensures old(session).Some? ==>
        session == Some(old(session).value.(players := SetCharacterIn(old(session).value.players, playerId, characterId)))
    {
      if session.Some? {
        var prev := session.value;
        session := Some(prev.(players := SetCharacterIn(prev.players, playerId, characterId)));
      }
    }

    /** `resetSession`. */
    method ResetSession()
      modifies this
      ensures session.None?
    {
      session := None;
    }
  }

  /** After joining, the local player is listed under the id the session now records, with the given name. */
  lemma JoinListsLocalPlayer(session: Option<Session>, playerName: string)
    ensures var id := JoinPlayerId(session);
      Player(id, playerName, None) in UpsertPlayer(PlayersOf(session), Player(id, playerName, None))
  {
  }
}
