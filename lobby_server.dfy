/**
 * The lobby server's in-memory table: games by id, each with at most two
 * players holding the roles P1 and P2, the pending reconnect timers, and
 * what each socket joined as.  Every socket event is a transition
 * function on a `Lobby` value; `LobbyServer` holds the table in fields and
 * its methods are proved against those functions.  The clock is the `now`
 * parameter and a timer firing is the `OnGraceTimer` event.
 */
module LobbyTable {
  import opened Wrappers
  import JoinGame

  datatype Role = P1 | P2

  datatype Status = Connected | Reconnecting | Disconnected

  datatype LobbyPlayer = LobbyPlayer(
    playerId: string,
    name: string,
    role: Role,
    connected: bool,
    status: Status,
    socketId: Option<string>,
    reconnectingUntil: Option<int>,
    characterId: Option<string>)

  datatype Game = Game(gameId: string, players: seq<LobbyPlayer>, createdAt: int)

  /** What a socket last joined as: its `socket.data`. */
  datatype SocketSession = SocketSession(gameId: string, playerId: string)

  /**
   * The whole table: the games, the pending grace timers (keyed by
   * `gameId:playerId`, each standing for the timer armed for a socket) and
   * the sockets' join data.
   */
  datatype Lobby = Lobby(
    games: map<string, Game>,
    timers: map<string, string>,
    sockets: map<string, SocketSession>)

  datatype JoinOutcome = Joined | GameNotFound | RoomFull

  datatype JoinStep = JoinStep(lobby: Lobby, outcome: JoinOutcome)

  const ReconnectGraceMs := 15000

  /** The default name of a player who joins without one. */
  const DefaultName := "Player"

  function TimerKey(gameId: string, playerId: string): string
  {
    gameId + ":" + playerId
  }

  /** `players.find(p => p.playerId === playerId)`, as the index of the first match or -1. */
  function FindPlayer(players: seq<LobbyPlayer>, playerId: string): (i: int)
    ensures -1 <= i < |players|
    ensures i == -1 <==> forall k :: 0 <= k < |players| ==> players[k].playerId != playerId
    ensures i >= 0 ==> players[i].playerId == playerId && forall k :: 0 <= k < i ==> players[k].playerId != playerId
  {
    if players == [] then -1
    else if players[0].playerId == playerId then 0
    else
      var rest := FindPlayer(players[1..], playerId);
      if rest == -1 then -1 else rest + 1
  }

  predicate HasP1(players: seq<LobbyPlayer>)
  {
    exists k :: 0 <= k < |players| && players[k].role == P1
  }

  // ----- Invariant -----

  /** Status, `connected` and the reconnect deadline agree, and the player has a socket. */
  predicate PlayerValid(p: LobbyPlayer)
  {
    && (p.status == Connected ==> p.connected)
    && (p.status == Disconnected ==> !p.connected)
    && (p.reconnectingUntil.Some? <==> p.status == Reconnecting)
    && p.socketId.Some?
  }

  /** At most two players, the first P1 and the second P2, with distinct ids. */
  predicate GameValid(g: Game)
  {
    && |g.players| <= 2
    && (forall k :: 0 <= k < |g.players| ==> g.players[k].role == (if k == 0 then P1 else P2))
    && (|g.players| == 2 ==> g.players[0].playerId != g.players[1].playerId)
    && (forall k :: 0 <= k < |g.players| ==> PlayerValid(g.players[k]))
  }

  predicate LobbyValid(l: Lobby)
  {
    forall id :: id in l.games ==> l.games[id].gameId == id && GameValid(l.games[id])
  }

  /** Players are only ever added at the end or changed in place, never removed or reordered. */
  predicate PlayersKept(before: Game, after: Game)
  {
    && |before.players| <= |after.players|
    && forall k :: 0 <= k < |before.players| ==> after.players[k].playerId == before.players[k].playerId
  }

  predicate GamesKept(before: Lobby, after: Lobby)
  {
    forall id :: id in before.games ==> id in after.games && PlayersKept(before.games[id], after.games[id])
  }

  // ----- Transitions -----

  function EmptyGame(gameId: string, now: int): Game
  {
    Game(gameId, [], now)
  }

  /** The create-game handler, once a fresh id has been drawn. */
  function CreateGameIn(l: Lobby, gameId: string, now: int): (r: Lobby)
    requires gameId !in l.games
    ensures r.games.Keys == l.games.Keys + {gameId}
    ensures r.games[gameId].players == []
    ensures forall id :: id in l.games ==> r.games[id] == l.games[id]
  {
    l.(games := l.games[gameId := EmptyGame(gameId, now)])
  }

  /** A known player coming back: connected again on the new socket; a non-empty name replaces the old one. */
  function Rejoined(p: LobbyPlayer, name: Option<string>, socketId: string): (q: LobbyPlayer)
    ensures PlayerValid(q) && q.status == Connected
    ensures q.connected && q.socketId == Some(socketId) && q.reconnectingUntil.None?
    ensures q.playerId == p.playerId && q.role == p.role && q.characterId == p.characterId
    ensures name.Some? && name.value != "" ==> q.name == name.value
    ensures name.None? || name.value == "" ==> q.name == p.name
  {
    p.(connected := true, status := Connected, socketId := Some(socketId), reconnectingUntil := None,
       name := if name.Some? && name.value != "" then name.value else p.name)
  }

  /** A player seen for the first time: P2 when a P1 is present, else P1. */
  function Newcomer(players: seq<LobbyPlayer>, playerId: string, name: Option<string>, socketId: string): (q: LobbyPlayer)
    ensures PlayerValid(q)
    ensures q.role == P2 <==> HasP1(players)
  {
    LobbyPlayer(playerId, name.GetOr(DefaultName), if HasP1(players) then P2 else P1,
                true, Connected, Some(socketId), None, None)
  }

  /** `lobby:join`. */
  function JoinLobby(l: Lobby, gameId: string, playerId: string, name: Option<string>, socketId: string): (r: JoinStep)
    ensures gameId !in l.games ==> r == JoinStep(l, GameNotFound)
    ensures r.outcome == RoomFull <==>
      gameId in l.games && FindPlayer(l.games[gameId].players, playerId) == -1 && |l.games[gameId].players| >= 2
    ensures r.outcome != Joined ==> r.lobby == l
    ensures r.outcome == Joined ==> r.lobby.sockets == l.sockets[socketId := SocketSession(gameId, playerId)]
  {
    if gameId !in l.games then JoinStep(l, GameNotFound)
    else
      var game := l.games[gameId];
      var i := FindPlayer(game.players, playerId);
      var sockets := l.sockets[socketId := SocketSession(gameId, playerId)];
      if i >= 0 then
        var players := game.players[i := Rejoined(game.players[i], name, socketId)];
        JoinStep(Lobby(l.games[gameId := game.(players := players)], l.timers - {TimerKey(gameId, playerId)}, sockets), Joined)
      else if |game.players| >= 2 then JoinStep(l, RoomFull)
      else
        var players := game.players + [Newcomer(game.players, playerId, name, socketId)];
        JoinStep(Lobby(l.games[gameId := game.(players := players)], l.timers, sockets), Joined)
  }

  /** `lobby:setName`: sets one player's name, or does nothing when the game or player is unknown. */
  function SetNameIn(l: Lobby, gameId: string, playerId: string, name: string): (r: Lobby)
  {
    if gameId !in l.games then l
    else
      var game := l.games[gameId];
      var i := FindPlayer(game.players, playerId);
      if i < 0 then l
      else l.(games := l.games[gameId := game.(players := game.players[i := game.players[i].(name := name)])])
  }

  /** `lobby:setCharacter`: sets one player's character, or does nothing when the game or player is unknown. */
  function SetCharacterIn(l: Lobby, gameId: string, playerId: string, characterId: string): (r: Lobby)
  {
    if gameId !in l.games then l
    else
      var game := l.games[gameId];
      var i := FindPlayer(game.players, playerId);
      if i < 0 then l
      else l.(games := l.games[gameId := game.(players := game.players[i := game.players[i].(characterId := Some(characterId))])])
  }

  /** The player a disconnecting socket speaks for, when it joined and both are still known. */
  function DisconnectTarget(l: Lobby, socketId: string): (t: Option<(string, int)>)
    ensures t.Some? ==> t.value.0 in l.games && 0 <= t.value.1 < |l.games[t.value.0].players|
    ensures t.None? <==>
      || socketId !in l.sockets
      || l.sockets[socketId].gameId == "" || l.sockets[socketId].playerId == ""
      || l.sockets[socketId].gameId !in l.games
      || forall k :: 0 <= k < |l.games[l.sockets[socketId].gameId].players| ==>
           l.games[l.sockets[socketId].gameId].players[k].playerId != l.sockets[socketId].playerId
    ensures t.Some? ==>
      var data := l.sockets[socketId];
      var players := l.games[data.gameId].players;
      && t.value.0 == data.gameId
      && players[t.value.1].playerId == data.playerId
      && forall k :: 0 <= k < t.value.1 ==> players[k].playerId != data.playerId
  {
    if socketId !in l.sockets then None
    else
      var data := l.sockets[socketId];
      if data.gameId == "" || data.playerId == "" || data.gameId !in l.games then None
      else
        var i := FindPlayer(l.games[data.gameId].players, data.playerId);
        if i < 0 then None else Some((data.gameId, i))
  }

  /**
   * `disconnect`: unless the player has since moved to another socket, the
   * player starts reconnecting until `now` plus the grace period and a grace
   * timer for this socket replaces any pending one.
   */
  function DisconnectIn(l: Lobby, socketId: string, now: int): (r: Lobby)
  {
    var t := DisconnectTarget(l, socketId);
    if t.None? then l
    else
      var (gameId, i) := t.value;
      var game := l.games[gameId];
      var p := game.players[i];
      if p.socketId.Some? && p.socketId.value != "" && p.socketId.value != socketId then l
      else
        var q := p.(status := Reconnecting, reconnectingUntil := Some(now + ReconnectGraceMs));
        Lobby(l.games[gameId := game.(players := game.players[i := q])],
              l.timers[TimerKey(gameId, p.playerId) := socketId], l.sockets)
  }

  /**
   * The grace timer armed by a disconnect of `socketId`: the player is
   * marked disconnected only if it is still on that socket and still
   * reconnecting.
   */
  function GraceTimerIn(l: Lobby, gameId: string, playerId: string, socketId: string): (r: Lobby)
  {
    if gameId !in l.games then l
    else
      var game := l.games[gameId];
      var i := FindPlayer(game.players, playerId);
      if i < 0 then l
      else
        var p := game.players[i];
        if p.socketId != Some(socketId) || p.status != Reconnecting then l
        else
          var q := p.(connected := false, status := Disconnected, reconnectingUntil := None);
          l.(games := l.games[gameId := game.(players := game.players[i := q])],
             timers := l.timers - {TimerKey(gameId, playerId)})
  }

  // ----- Invariant preservation -----

  lemma UpdateGameValid(l: Lobby, gameId: string, g: Game)
    requires LobbyValid(l) && g.gameId == gameId && GameValid(g)
    ensures LobbyValid(l.(games := l.games[gameId := g]))
  {
  }

  /** Replacing one player by a valid one with the same id and role keeps a game valid and keeps its players. */
  lemma ReplacePlayerValid(g: Game, i: int, q: LobbyPlayer)
    requires GameValid(g) && 0 <= i < |g.players|
    requires q.playerId == g.players[i].playerId && q.role == g.players[i].role && PlayerValid(q)
    ensures GameValid(g.(players := g.players[i := q]))
    ensures PlayersKept(g, g.(players := g.players[i := q]))
  {
  }

  lemma CreateGamePreservesValid(l: Lobby, gameId: string, now: int)
    requires LobbyValid(l) && gameId !in l.games
    ensures LobbyValid(CreateGameIn(l, gameId, now))
    ensures GamesKept(l, CreateGameIn(l, gameId, now))
  {
  }

  /** Joining keeps the table valid (so never more than two players) and removes nobody. */
  lemma JoinPreservesValid(l: Lobby, gameId: string, playerId: string, name: Option<string>, socketId: string)
    requires LobbyValid(l)
    ensures LobbyValid(JoinLobby(l, gameId, playerId, name, socketId).lobby)
    ensures GamesKept(l, JoinLobby(l, gameId, playerId, name, socketId).lobby)
  {
    var r := JoinLobby(l, gameId, playerId, name, socketId);
    if gameId in l.games {
      var game := l.games[gameId];
      var i := FindPlayer(game.players, playerId);
      if i >= 0 {
        ReplacePlayerValid(game, i, Rejoined(game.players[i], name, socketId));
        UpdateGameValid(l, gameId, game.(players := game.players[i := Rejoined(game.players[i], name, socketId)]));
      } else if |game.players| < 2 {
        var q := Newcomer(game.players, playerId, name, socketId);
        var g := game.(players := game.players + [q]);
        if |game.players| == 1 {
          assert HasP1(game.players) by {
            assert game.players[0].role == P1;
          }
        }
        assert GameValid(g);
        UpdateGameValid(l, gameId, g);
      }
    }
  }

  lemma SetNamePreservesValid(l: Lobby, gameId: string, playerId: string, name: string)
    requires LobbyValid(l)
    ensures LobbyValid(SetNameIn(l, gameId, playerId, name))
    ensures GamesKept(l, SetNameIn(l, gameId, playerId, name))
  {
    if gameId in l.games {
      var game := l.games[gameId];
      var i := FindPlayer(game.players, playerId);
      if i >= 0 {
        ReplacePlayerValid(game, i, game.players[i].(name := name));
      }
    }
  }

  lemma SetCharacterPreservesValid(l: Lobby, gameId: string, playerId: string, characterId: string)
    requires LobbyValid(l)
    ensures LobbyValid(SetCharacterIn(l, gameId, playerId, characterId))
    ensures GamesKept(l, SetCharacterIn(l, gameId, playerId, characterId))
  {
    if gameId in l.games {
      var game := l.games[gameId];
      var i := FindPlayer(game.players, playerId);
      if i >= 0 {
        ReplacePlayerValid(game, i, game.players[i].(characterId := Some(characterId)));
      }
    }
  }

  lemma DisconnectPreservesValid(l: Lobby, socketId: string, now: int)
    requires LobbyValid(l)
    ensures LobbyValid(DisconnectIn(l, socketId, now))
    ensures GamesKept(l, DisconnectIn(l, socketId, now))
  {
    var t := DisconnectTarget(l, socketId);
    if t.Some? {
      var (gameId, i) := t.value;
      var game := l.games[gameId];
      var p := game.players[i];
      ReplacePlayerValid(game, i, p.(status := Reconnecting, reconnectingUntil := Some(now + ReconnectGraceMs)));
    }
  }

  lemma GraceTimerPreservesValid(l: Lobby, gameId: string, playerId: string, socketId: string)
    requires LobbyValid(l)
    ensures LobbyValid(GraceTimerIn(l, gameId, playerId, socketId))
    ensures GamesKept(l, GraceTimerIn(l, gameId, playerId, socketId))
  {
    if gameId in l.games {
      var game := l.games[gameId];
      var i := FindPlayer(game.players, playerId);
      if i >= 0 {
        var p := game.players[i];
        ReplacePlayerValid(game, i, p.(connected := false, status := Disconnected, reconnectingUntil := None));
      }
    }
  }

  // ----- Properties of the transitions -----

  /** A rejoin adds nobody; the player is connected on the new socket with no deadline and no pending timer. */
  lemma RejoinAddsNoPlayer(l: Lobby, gameId: string, playerId: string, name: Option<string>, socketId: string)
    requires gameId in l.games && FindPlayer(l.games[gameId].players, playerId) >= 0
    ensures var r := JoinLobby(l, gameId, playerId, name, socketId);
      var i := FindPlayer(l.games[gameId].players, playerId);
      && r.outcome == Joined
      && |r.lobby.games[gameId].players| == |l.games[gameId].players|
      && r.lobby.games[gameId].players[i].connected
      && r.lobby.games[gameId].players[i].status == Connected
      && r.lobby.games[gameId].players[i].socketId == Some(socketId)
      && r.lobby.games[gameId].players[i].reconnectingUntil.None?
      && TimerKey(gameId, playerId) !in r.lobby.timers
  {
  }

  /**
   * A rejoin changes only the rejoining player (to its `Rejoined` record),
   * drops only that player's timer and records only this socket.
   */
  lemma RejoinChangesOnlyPlayer(l: Lobby, gameId: string, playerId: string, name: Option<string>, socketId: string)
    requires gameId in l.games && FindPlayer(l.games[gameId].players, playerId) >= 0
    ensures var r := JoinLobby(l, gameId, playerId, name, socketId).lobby;
      var i := FindPlayer(l.games[gameId].players, playerId);
      var before := l.games[gameId];
      && r.sockets == l.sockets[socketId := SocketSession(gameId, playerId)]
      && r.timers == l.timers - {TimerKey(gameId, playerId)}
      && r.games.Keys == l.games.Keys
      && (forall id :: id in l.games && id != gameId ==> r.games[id] == l.games[id])
      && r.games[gameId] == before.(players := before.players[i := Rejoined(before.players[i], name, socketId)])
  {
  }

  /** A rejoin without a name, or with an empty one, keeps the old name. */
  lemma RejoinKeepsNameWhenNoneGiven(l: Lobby, gameId: string, playerId: string, name: Option<string>, socketId: string)
    requires gameId in l.games && FindPlayer(l.games[gameId].players, playerId) >= 0
    requires name.None? || name == Some("")
    ensures var i := FindPlayer(l.games[gameId].players, playerId);
      JoinLobby(l, gameId, playerId, name, socketId).lobby.games[gameId].players[i].name == l.games[gameId].players[i].name
  {
  }

  /** A rejoin with a non-empty name replaces the old name. */
  lemma RejoinTakesGivenName(l: Lobby, gameId: string, playerId: string, name: string, socketId: string)
    requires gameId in l.games && FindPlayer(l.games[gameId].players, playerId) >= 0
    requires name != ""
    ensures var i := FindPlayer(l.games[gameId].players, playerId);
      JoinLobby(l, gameId, playerId, Some(name), socketId).lobby.games[gameId].players[i].name == name
  {
  }

  /** A newcomer is appended; the first ever player is P1 and a second one is P2. */
  lemma NewcomerRole(l: Lobby, gameId: string, playerId: string, name: Option<string>, socketId: string)
    requires LobbyValid(l)
    requires gameId in l.games && FindPlayer(l.games[gameId].players, playerId) == -1
    requires |l.games[gameId].players| < 2
    ensures var r := JoinLobby(l, gameId, playerId, name, socketId);
      var before := l.games[gameId].players;
      var after := r.lobby.games[gameId].players;
      && r.outcome == Joined
      && after[..|before|] == before
      && |after| == |before| + 1
      && after[|before|].playerId == playerId
      && after[|before|].role == (if before == [] then P1 else P2)
      && after[|before|].name == name.GetOr(DefaultName)
      && after[|before|].connected && after[|before|].status == Connected
      && after[|before|].socketId == Some(socketId)
      && after[|before|].reconnectingUntil.None? && after[|before|].characterId.None?
      && r.lobby.timers == l.timers
      && r.lobby.sockets == l.sockets[socketId := SocketSession(gameId, playerId)]
      && r.lobby.games.Keys == l.games.Keys
      && (forall id :: id in l.games && id != gameId ==> r.lobby.games[id] == l.games[id])
  {
    var before := l.games[gameId].players;
    if |before| == 1 {
      assert HasP1(before) by {
        assert before[0].role == P1;
      }
    }
    var after := JoinLobby(l, gameId, playerId, name, socketId).lobby.games[gameId].players;
    assert after == before + [Newcomer(before, playerId, name, socketId)];
    assert after[..|before|] == before;
  }

  /** `lobby:setName` with an unknown game or player changes nothing; otherwise only that player's name changes. */
  lemma SetNameChangesOnlyName(l: Lobby, gameId: string, playerId: string, name: string)
    ensures gameId !in l.games || FindPlayer(l.games[gameId].players, playerId) < 0 ==>
      SetNameIn(l, gameId, playerId, name) == l
    ensures gameId in l.games && FindPlayer(l.games[gameId].players, playerId) >= 0 ==>
      var r := SetNameIn(l, gameId, playerId, name);
      var i := FindPlayer(l.games[gameId].players, playerId);
      var before := l.games[gameId].players;
      && r.timers == l.timers && r.sockets == l.sockets
      && r.games.Keys == l.games.Keys
      && (forall id :: id in l.games && id != gameId ==> r.games[id] == l.games[id])
      && |r.games[gameId].players| == |before|
      && (forall k :: 0 <= k < |before| && k != i ==> r.games[gameId].players[k] == before[k])
      && r.games[gameId].players[i].name == name
      && r.games[gameId].players[i].(name := before[i].name) == before[i]
  {
  }

  /** `lobby:setCharacter` with an unknown game or player changes nothing; otherwise only that player's character changes. */
  lemma SetCharacterChangesOnlyCharacter(l: Lobby, gameId: string, playerId: string, characterId: string)
    ensures gameId !in l.games || FindPlayer(l.games[gameId].players, playerId) < 0 ==>
      SetCharacterIn(l, gameId, playerId, characterId) == l
    ensures gameId in l.games && FindPlayer(l.games[gameId].players, playerId) >= 0 ==>
      var r := SetCharacterIn(l, gameId, playerId, characterId);
      var i := FindPlayer(l.games[gameId].players, playerId);
      var before := l.games[gameId].players;
      && r.timers == l.timers && r.sockets == l.sockets
      && r.games.Keys == l.games.Keys
      && (forall id :: id in l.games && id != gameId ==> r.games[id] == l.games[id])
      && |r.games[gameId].players| == |before|
      && (forall k :: 0 <= k < |before| && k != i ==> r.games[gameId].players[k] == before[k])
      && r.games[gameId].players[i].characterId == Some(characterId)
      && r.games[gameId].players[i].(characterId := before[i].characterId) == before[i]
  {
  }

  /** A disconnect from a socket that never joined, or whose game or player is gone, changes nothing. */
  lemma DisconnectWithoutTargetIgnored(l: Lobby, socketId: string, now: int)
    requires DisconnectTarget(l, socketId).None?
    ensures DisconnectIn(l, socketId, now) == l
  {
  }

  /** A disconnect from a socket the player has since left changes nothing. */
  lemma StaleDisconnectIgnored(l: Lobby, socketId: string, now: int)
    requires DisconnectTarget(l, socketId).Some?
    requires var (gameId, i) := DisconnectTarget(l, socketId).value;
      var current := l.games[gameId].players[i].socketId;
      current.Some? && current.value != "" && current.value != socketId
    ensures DisconnectIn(l, socketId, now) == l
  {
  }

  /**
   * A disconnect from the player's current socket (or from a player with no
   * socket on record) starts the grace period and arms its timer, replacing
   * any pending one.  Nothing else changes: not `connected`, not the
   * player's other fields, not the other players, games or timers, and not
   * the sockets' join data.
   */
  lemma DisconnectStartsGrace(l: Lobby, socketId: string, now: int)
    requires DisconnectTarget(l, socketId).Some?
    requires var (gameId, i) := DisconnectTarget(l, socketId).value;
      var current := l.games[gameId].players[i].socketId;
      current.None? || current.value == "" || current.value == socketId
    ensures var (gameId, i) := DisconnectTarget(l, socketId).value;
      var p := l.games[gameId].players[i];
      var r := DisconnectIn(l, socketId, now);
      && r.sockets == l.sockets
      && r.timers == l.timers[TimerKey(gameId, p.playerId) := socketId]
      && r.games.Keys == l.games.Keys
      && (forall id :: id in l.games && id != gameId ==> r.games[id] == l.games[id])
      && r.games[gameId] == l.games[gameId].(players := l.games[gameId].players[i := r.games[gameId].players[i]])
      && r.games[gameId].players[i] == p.(status := Reconnecting, reconnectingUntil := Some(now + ReconnectGraceMs))
  {
  }

  /** Left alone, a disconnect is followed by the timer marking the player disconnected. */
  lemma GraceExpiryDisconnects(l: Lobby, socketId: string, now: int)
    requires DisconnectTarget(l, socketId).Some?
    requires var (gameId, i) := DisconnectTarget(l, socketId).value;
      l.games[gameId].players[i].socketId == Some(socketId)
    ensures var (gameId, i) := DisconnectTarget(l, socketId).value;
      var playerId := l.games[gameId].players[i].playerId;
      var after := GraceTimerIn(DisconnectIn(l, socketId, now), gameId, playerId, socketId);
      && !after.games[gameId].players[i].connected
      && after.games[gameId].players[i].status == Disconnected
      && TimerKey(gameId, playerId) !in after.timers
  {
    var (gameId, i) := DisconnectTarget(l, socketId).value;
    var playerId := l.games[gameId].players[i].playerId;
    var mid := DisconnectIn(l, socketId, now);
    assert mid.games[gameId].players[i].playerId == playerId;
    FindPlayerUnchanged(l.games[gameId].players, mid.games[gameId].players, playerId, i);
  }

  /** A rejoin on a new socket before the timer fires makes the timer do nothing. */
  lemma RejoinCancelsGrace(l: Lobby, socketId: string, now: int, name: Option<string>, newSocketId: string)
    requires DisconnectTarget(l, socketId).Some?
    requires newSocketId != socketId
    ensures var (gameId, i) := DisconnectTarget(l, socketId).value;
      var playerId := l.games[gameId].players[i].playerId;
      var mid := JoinLobby(DisconnectIn(l, socketId, now), gameId, playerId, name, newSocketId).lobby;
      && GraceTimerIn(mid, gameId, playerId, socketId) == mid
      && mid.games[gameId].players[i].status == Connected
  {
    var (gameId, i) := DisconnectTarget(l, socketId).value;
    var playerId := l.games[gameId].players[i].playerId;
    var first := DisconnectIn(l, socketId, now);
    assert first.games[gameId].players[i].playerId == playerId;
    FindPlayerUnchanged(l.games[gameId].players, first.games[gameId].players, playerId, i);
    var mid := JoinLobby(first, gameId, playerId, name, newSocketId).lobby;
    FindPlayerUnchanged(first.games[gameId].players, mid.games[gameId].players, playerId, i);
  }

  /**
   * The grace timer changes nothing unless its player is still known, still
   * on the socket that disconnected and still reconnecting.
   */
  lemma GraceTimerGuard(l: Lobby, gameId: string, playerId: string, socketId: string)
    requires gameId in l.games && FindPlayer(l.games[gameId].players, playerId) >= 0 ==>
      var p := l.games[gameId].players[FindPlayer(l.games[gameId].players, playerId)];
      p.socketId != Some(socketId) || p.status != Reconnecting
    ensures GraceTimerIn(l, gameId, playerId, socketId) == l
  {
  }

  /** When the guard passes, the timer marks the player disconnected, removes its own entry and changes nothing else. */
  lemma GraceTimerFires(l: Lobby, gameId: string, playerId: string, socketId: string)
    requires gameId in l.games && FindPlayer(l.games[gameId].players, playerId) >= 0
    requires var p := l.games[gameId].players[FindPlayer(l.games[gameId].players, playerId)];
      p.socketId == Some(socketId) && p.status == Reconnecting
    ensures var i := FindPlayer(l.games[gameId].players, playerId);
      var p := l.games[gameId].players[i];
      var r := GraceTimerIn(l, gameId, playerId, socketId);
      && r.sockets == l.sockets
      && r.timers == l.timers - {TimerKey(gameId, playerId)}
      && (forall id :: id in l.games && id != gameId ==> id in r.games && r.games[id] == l.games[id])
      && gameId in r.games
      && r.games[gameId].players == l.games[gameId].players[i := p.(connected := false, status := Disconnected, reconnectingUntil := None)]
  {
  }

  /** Changing players in place without touching their ids leaves the first match where it was. */
  lemma FindPlayerUnchanged(before: seq<LobbyPlayer>, after: seq<LobbyPlayer>, playerId: string, i: int)
    requires |after| == |before| && 0 <= i < |before|
    requires forall k :: 0 <= k < |before| ==> after[k].playerId == before[k].playerId
    requires FindPlayer(before, playerId) == i
    ensures FindPlayer(after, playerId) == i
  {
  }

  /** The link the create-game response carries: `${clientUrl}/lobby/${gameId}`. */
  function InviteUrl(clientUrl: string, gameId: string): (url: string)
    ensures |url| == |clientUrl| + |gameId| + 7
    ensures url[..|clientUrl|] == clientUrl
    ensures url[|clientUrl|..|clientUrl| + 7] == JoinGame.LobbyPrefix
    ensures url[|clientUrl| + 7..] == gameId
  {
    clientUrl + JoinGame.LobbyPrefix + gameId
  }

  /** An id drawn by `createGameId`: up to six upper-case base-36 digits. */
  predicate IsDrawnId(gameId: string)
  {
    |gameId| <= 6 && forall k :: 0 <= k < |gameId| ==> '0' <= gameId[k] <= '9' || 'A' <= gameId[k] <= 'Z'
  }

  /** The invite link of a non-empty drawn id leads the join page back to that game. */
  lemma InviteUrlRoundTrip(clientUrl: string, gameId: string)
    requires IsDrawnId(gameId) && gameId != []
    requires '?' !in clientUrl
    ensures JoinGame.ExtractGameId(InviteUrl(clientUrl, gameId)) == gameId
  {
    assert '/' !in gameId && '?' !in gameId;
    JoinGame.InviteLinkRoundTrip(clientUrl, gameId);
  }

  /** The server process: the games table, the grace timers and the sockets' join data, updated in place. */
  class LobbyServer {
    const clientUrl: string
    var games: map<string, Game>
    var disconnectTimers: map<string, string>
    var sockets: map<string, SocketSession>

    function Snapshot(): Lobby
      reads this
    {
      Lobby(games, disconnectTimers, sockets)
    }

    predicate Valid()
      reads this
    {
      LobbyValid(Snapshot())
    }

    constructor(clientUrl: string)
      ensures this.clientUrl == clientUrl
      ensures games == map[] && disconnectTimers == map[] && sockets == map[]
      ensures Valid()
    {
      this.clientUrl := clientUrl;
      games := map[];
      disconnectTimers := map[];
      sockets := map[];
    }

    /**
     * `POST /api/games`: draws ids from `candidates` (the random draws)
     * until one is unused, stores an empty game and returns the id and
     * its invite link.
     */
    method CreateGame(candidates: seq<string>, now: int) returns (gameId: string, inviteUrl: string)
      requires exists k :: 0 <= k < |candidates| && candidates[k] !in games
      modifies this
      ensures gameId in candidates && gameId !in old(games)
      ensures exists k :: 0 <= k < |candidates| && candidates[k] == gameId &&
                (forall j :: 0 <= j < k ==> candidates[j] in old(games))
      ensures Snapshot() == CreateGameIn(old(Snapshot()), gameId, now)
      ensures inviteUrl == InviteUrl(clientUrl, gameId)
      ensures old(Valid()) ==> Valid()
    {
      var i := 0;
      gameId := candidates[0];
      while gameId in games
        invariant 0 <= i < |candidates| && gameId == candidates[i]
        invariant forall j :: 0 <= j < i ==> candidates[j] in games
        invariant exists k :: i <= k < |candidates| && candidates[k] !in games
        decreases |candidates| - i
      {
        i := i + 1;
        gameId := candidates[i];
      }
      ghost var before := Snapshot();
      if LobbyValid(before) {
        CreateGamePreservesValid(before, gameId, now);
      }
      games := games[gameId := EmptyGame(gameId, now)];
      inviteUrl := InviteUrl(clientUrl, gameId);
    }

    /** `lobby:join` from the socket `socketId`. */
    method Join(gameId: string, playerId: string, name: Option<string>, socketId: string) returns (outcome: JoinOutcome)
      modifies this
      ensures JoinStep(Snapshot(), outcome) == JoinLobby(old(Snapshot()), gameId, playerId, name, socketId)
      ensures old(Valid()) ==> Valid()
    {
      ghost var before := Snapshot();
      if LobbyValid(before) {
        JoinPreservesValid(before, gameId, playerId, name, socketId);
      }
      if gameId !in games {
        return GameNotFound;
      }
      var game := games[gameId];
      var i := FindPlayer(game.players, playerId);
      if i >= 0 {
        var existing := game.players[i];
        existing := existing.(connected := true, status := Connected, socketId := Some(socketId), reconnectingUntil := None);
        if name.Some? && name.value != "" {
          existing := existing.(name := name.value);
        }
        games := games[gameId := game.(players := game.players[i := existing])];
        var timerKey := TimerKey(gameId, playerId);
        if timerKey in disconnectTimers {
          disconnectTimers := disconnectTimers - {timerKey};
        }
      } else {
        if |game.players| >= 2 {
          return RoomFull;
        }
        var role := if HasP1(game.players) then P2 else P1;
        var player := LobbyPlayer(playerId, name.GetOr(DefaultName), role, true, Connected, Some(socketId), None, None);
        games := games[gameId := game.(players := game.players + [player])];
      }
      sockets := sockets[socketId := SocketSession(gameId, playerId)];
      outcome := Joined;
    }

    /** `lobby:setName`. */
    method SetName(gameId: string, playerId: string, name: string)
      modifies this
      ensures Snapshot() == SetNameIn(old(Snapshot()), gameId, playerId, name)
      ensures old(Valid()) ==> Valid()
    {
      ghost var before := Snapshot();
      if LobbyValid(before) {
        SetNamePreservesValid(before, gameId, playerId, name);
      }
      if gameId !in games {
        return;
      }
      var game := games[gameId];
      var i := FindPlayer(game.players, playerId);
      if i < 0 {
        return;
      }
      games := games[gameId := game.(players := game.players[i := game.players[i].(name := name)])];
    }

    /** `lobby:setCharacter`. */
    method SetCharacter(gameId: string, playerId: string, characterId: string)
      modifies this
      ensures Snapshot() == SetCharacterIn(old(Snapshot()), gameId, playerId, characterId)
      ensures old(Valid()) ==> Valid()
    {
      ghost var before := Snapshot();
      if LobbyValid(before) {
        SetCharacterPreservesValid(before, gameId, playerId, characterId);
      }
      if gameId !in games {
        return;
      }
      var game := games[gameId];
      var i := FindPlayer(game.players, playerId);
      if i < 0 {
        return;
      }
      games := games[gameId := game.(players := game.players[i := game.players[i].(characterId := Some(characterId))])];
    }

    /** `disconnect` of the socket `socketId` at time `now`. */
    method Disconnect(socketId: string, now: int)
      modifies this
      ensures Snapshot() == DisconnectIn(old(Snapshot()), socketId, now)
      ensures old(Valid()) ==> Valid()
    {
      ghost var before := Snapshot();
      if LobbyValid(before) {
        DisconnectPreservesValid(before, socketId, now);
      }
      if socketId !in sockets {
        return;
      }
      var data := sockets[socketId];
      if data.gameId == "" || data.playerId == "" || data.gameId !in games {
        return;
      }
      var game := games[data.gameId];
      var i := FindPlayer(game.players, data.playerId);
      if i < 0 {
        return;
      }
      var player := game.players[i];
      if player.socketId.Some? && player.socketId.value != "" && player.socketId.value != socketId {
        return;
      }
      player := player.(status := Reconnecting, reconnectingUntil := Some(now + ReconnectGraceMs));
      games := games[data.gameId := game.(players := game.players[i := player])];
      disconnectTimers := disconnectTimers[TimerKey(data.gameId, data.playerId) := socketId];
    }

    /** The grace timer armed by a disconnect of `socketId` for this player fires. */
    method OnGraceTimer(gameId: string, playerId: string, socketId: string)
      requires TimerKey(gameId, playerId) in disconnectTimers && disconnectTimers[TimerKey(gameId, playerId)] == socketId
      modifies this
      ensures Snapshot() == GraceTimerIn(old(Snapshot()), gameId, playerId, socketId)
      ensures old(Valid()) ==> Valid()
    {
      ghost var before := Snapshot();
      if LobbyValid(before) {
        GraceTimerPreservesValid(before, gameId, playerId, socketId);
      }
      if gameId !in games {
        return;
      }
      var game := games[gameId];
      var i := FindPlayer(game.players, playerId);
      if i < 0 {
        return;
      }
      var player := game.players[i];
      if player.socketId != Some(socketId) || player.status != Reconnecting {
        return;
      }
      player := player.(connected := false, status := Disconnected, reconnectingUntil := None);
      games := games[gameId := game.(players := game.players[i := player])];
      disconnectTimers := disconnectTimers - {TimerKey(gameId, playerId)};
    }
  }
}
