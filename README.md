# HexBattler core, modelled in Dafny

HexBattler is a two-player tactics game played on a hexagonal board, with a
browser client and a small lobby server. This project models the parts of it
that decide things, and proves properties about them:

- the axial hex coordinates, their string keys, and the disk-shaped board
  (`hex.dfy`, `geometry.dfy`);
- the movement rules engine: relative directions, facing options, legal
  destinations and applying a move (`engine.dfy`);
- the neighbour preview and the board panel's distance, core and highlight
  sets (`preview_engine.dfy`, `hex_board_panel.dfy`);
- the selection reducer and the placeholder resolver (`game_state.dfy`,
  `reducer.dfy`, `resolver.dfy`);
- the symbol registry, the card schema validator, frame normalisation and
  the error formatter (`symbols.dfy`, `json_value.dfy`, `schema.dfy`,
  `normalize_frames.dfy`, `format_validation_error.dfy`, `text_lines.dfy`,
  `numerals.dfy`);
- the client session store and the join page's invite-link parsing
  (`game_session.dfy`, `join_game.dfy`);
- the lobby server: games, joins and rejoins, names and characters,
  disconnects and the reconnect grace timer (`lobby_server.dfy`).

Pure code is modelled as functions with lemmas. Loops become methods with
invariants, each proved against a specification function. Objects whose
state changes in place become classes: the session provider and the lobby
server. Each server handler is a method whose new state is a pure
transition of the old one. The lobby invariant (at most two players, the
first is P1, distinct ids) is proved to be preserved by every transition.

Untyped card input is a `Json` value. JavaScript's `%`, `trim`, `split`,
`??` and truthiness are written out explicitly where the source relies on them.

## Model

| member | source | states |
|---|---|---|
| Hex.AxialKeyInjective | src/domain/hex.ts:4 | two cells with the same `q,r` key are the same cell |
| Hex.AxialKey | src/domain/hex.ts:4 | the key splits at its first comma into the decimal `q` before it and the decimal `r` after it |
| Hex.CommaPosition | src/domain/hex.ts:4 | in a key, the first comma comes right after the rendered q, since a rendered integer has no comma |
| Hex.NeighborOffsetsDistinct | src/domain/hex.ts:6-13 | the six neighbour offsets are pairwise different |
| Numerals.NatToString | src/domain/hex.ts:4 | a rendered natural number is a non-empty string of decimal digits |
| Numerals.IntToString | src/domain/hex.ts:4 | a rendered integer is non-empty, with digits and possibly a leading minus |
| Numerals.ParseNatOfNatToString | src/domain/hex.ts:4 | reading back a rendered natural number gives the number |
| Numerals.ParseIntOfIntToString | src/domain/hex.ts:4 | reading back a rendered integer gives the integer |
| Numerals.IntToStringInjective | src/domain/hex.ts:4 | different integers render to different strings |
| Geometry.BuildHexes | src/lib/geometry.ts:5-15 | the nested loops produce exactly the column-by-column disk enumeration |
| Geometry.MakeHexagonDisk | src/lib/geometry.ts:67 | returns the same cells as `buildHexes` |
| Geometry.ColumnsMembership | src/lib/geometry.ts:7-13 | a cell is in the first n columns iff its q is in range and its r lies within the column's bounds |
| Geometry.DiskMembership | src/lib/geometry.ts:5-15 | a cell is enumerated iff it lies within the radius, the engine's `isWithinBoard` |
| Geometry.ColumnsOrdered | src/lib/geometry.ts:7-13 | the first n columns come in strictly increasing (q, r) order |
| Geometry.DiskOrdered | src/lib/geometry.ts:5-15 | the disk is strictly ordered, so no cell appears twice |
| Geometry.ColumnLength | src/lib/geometry.ts:8-9 | column q holds 2R + 1 - abs(q) cells |
| Geometry.LeftColumnsCount | src/lib/geometry.ts:7-13 | closed form for the size of the columns left of the centre |
| Geometry.RightColumnsCount | src/lib/geometry.ts:7-13 | closed form for the size of the columns up to R + 1 + m |
| Geometry.DiskCount | src/lib/geometry.ts:5-15 | a disk of radius R >= 0 has 3R(R+1) + 1 cells; a negative radius gives none |
| Geometry.BuildHexMap | src/lib/geometry.ts:17-23 | the loop fills exactly the map of each hex under its key, later writes winning |
| Geometry.HexMapKeys | src/lib/geometry.ts:17-23 | the map's keys are exactly the keys of the input hexes |
| Geometry.HexMapValues | src/lib/geometry.ts:17-23 | every input hex is found under its own key |
| Geometry.HexMapSize | src/lib/geometry.ts:17-23 | the map has one entry per distinct input hex |
| Engine.DirectionVectorsAreNeighborOffsets | src/engine/index.ts:24-31 | the engine's direction vectors are the board's neighbour offsets, in the same order |
| Engine.RelativeOffset | src/engine/index.ts:33-40 | each relative direction is 0 to 5 sixth-turns from the facing |
| Engine.JsRem6 | src/engine/index.ts:58 | the remainder with the dividend's sign: Euclidean for a >= 0, in (-6, 0] and congruent for a < 0 |
| Engine.ResolveRelativeDirection | src/engine/index.ts:56-59 | the absolute direction is facing plus the offset mod 6; front keeps the facing; back turns by 3 |
| Engine.ResolveThenMirror | src/engine/index.ts:56-59 | turning by a relative direction and then by its mirror image restores the facing |
| Engine.ResolveInjective | src/engine/index.ts:56-59 | from one facing, the six relative directions reach six different directions |
| Engine.FacingCandidates | src/engine/index.ts:63-65 | one candidate per step from -maxSteps to maxSteps; none when maxSteps < 0 |
| Engine.Dedup | src/engine/index.ts:62-66 | the insertion-ordered set holds each candidate once, nothing else, and is no longer than its input |
| Engine.DedupOrder | src/engine/index.ts:61-67 | the set keeps first-insertion order: an earlier element first appeared earlier in the input |
| Engine.GetFacingOptions | src/engine/index.ts:61-67 | the loop returns the deduplicated candidates, without repeats |
| Engine.FacingOptionsIncludeFacing | src/engine/index.ts:61-67 | with maxSteps >= 0, keeping the current facing is always an option |
| Engine.FacingOptionsEmpty | src/engine/index.ts:61-67 | a negative maxSteps offers nothing |
| Engine.FacingOptionsCountSmall | src/engine/index.ts:61-67 | for maxSteps <= 2 the 2*maxSteps + 1 candidates are all kept |
| Engine.FacingOptionsCountLarge | src/engine/index.ts:61-67 | for 3 <= maxSteps <= 6 each of the six directions is offered exactly once |
| Engine.FacingOptionsCount | src/engine/index.ts:61-67 | for 0 <= maxSteps <= 6 the options are directions and there are min(2*maxSteps + 1, 6) of them |
| Engine.FacingOptionsNegativeBeyondSix | src/engine/index.ts:64 | with maxSteps = 7 the truncating remainder offers -1, which is not a direction |
| Engine.DestinationDistance | src/engine/index.ts:89-94 | the destination is reached by `steps` cells straight along one of the six directions, and lies exactly `abs(steps)` cells from the piece |
| Engine.BoardsNest | src/engine/index.ts:69-72 | the centre is on the board iff the radius is non-negative, and a cell on a board stays on every larger one |
| Engine.GetLegalActions | src/engine/index.ts:74-102 | facing options as above; no destination without a chosen facing; otherwise the one destination exactly when it is on the board; applying any returned destination keeps the piece's id, lands on the board and moves straight exactly `abs(steps)` cells |
| Engine.ApplyMove | src/engine/index.ts:104-116 | the moved piece keeps its id and takes the new position and facing |
| Engine.LegalMoveStaysOnBoard | src/engine/index.ts:89-98 | applying a destination that passed the board check keeps the piece's id, leaves it on the board, and moves it straight exactly `abs(steps)` cells |
| PreviewEngine.NeighborKeysDistinct | src/engine/previewEngine.ts:19-27 | the six keys are different from each other and from the selected cell's key |
| PreviewEngine.GetPreview | src/engine/previewEngine.ts:14-29 | nothing is highlighted without a cell or a frame; otherwise the six neighbour keys in offset order; no arrows |
| HexBoardPanel.AxialDistance | src/components/HexBoardPanel.tsx:10-15 | the distance is the largest of the three coordinate differences |
| HexBoardPanel.AxialDistanceSymmetric | src/components/HexBoardPanel.tsx:10-15 | distance is symmetric |
| HexBoardPanel.AxialDistanceZero | src/components/HexBoardPanel.tsx:10-15 | distance zero iff the same cell |
| HexBoardPanel.DistanceFromCenter | src/components/HexBoardPanel.tsx:10-15 | being within distance R of the centre is the engine's `isWithinBoard` |
| HexBoardPanel.DistanceOneIsNeighbor | src/components/HexBoardPanel.tsx:10-15 | distance one iff the cell is one of the six neighbours |
| HexBoardPanel.NeighborOffsetsAtDistanceOne | src/components/HexBoardPanel.tsx:10-15 | every neighbour offset lies at distance one from the centre |
| HexBoardPanel.CoreCells | src/components/HexBoardPanel.tsx:21 | the core holds exactly the board cells within distance one of the centre, without new repeats |
| HexBoardPanel.WithinOneIsCore | src/components/HexBoardPanel.tsx:21 | the cells within distance one are the centre and its six neighbours |
| HexBoardPanel.CoreCellsCount | src/components/HexBoardPanel.tsx:21 | on a board of radius >= 1 the core has seven cells |
| HexBoardPanel.HighlightedCells | src/components/HexBoardPanel.tsx:22-27 | nothing is highlighted without a selection; with one, a key is highlighted iff it is the key of a listed cell at distance one from the selected cell |
| HexBoardPanel.HighlightedCellsOnBoard | src/components/HexBoardPanel.tsx:22-27 | on the full board, a key is highlighted iff it is the key of one of the six neighbours that lies on the board; at most six, never the selected cell |
| HexBoardPanel.HighlightedNeighbor | src/components/HexBoardPanel.tsx:22-27 | the k-th neighbour of the selected cell is highlighted iff it lies on the board |
| GameState.FromNullable | src/engine/reducer.ts:18 | a value that was passed is never absent; it is present iff it is not null |
| Reducer.ApplyIntent | src/engine/reducer.ts:10-49 | no events; nothing outside the selection changes; each select intent sets its field; other intents return the state unchanged |
| Reducer.SelectHexChangesOnlyHex | src/engine/reducer.ts:12-22 | selecting a hex changes only the selected hex |
| Reducer.SelectCardResetsFrame | src/engine/reducer.ts:23-34 | selecting a card sets the card and resets the frame to null, keeping the hex |
| Reducer.SelectFrameChangesOnlyFrame | src/engine/reducer.ts:35-45 | selecting a frame changes only the frame index |
| Reducer.AbsentSelectionGetsOnlyTheSetField | src/engine/reducer.ts:10-49 | from no selection, each intent leaves only the field it sets |
| Reducer.ApplyIntentIdempotent | src/engine/reducer.ts:10-49 | applying the same intent twice is applying it once |
| Resolver.GetInitiativeOrder | src/engine/resolver.ts:10 | the ids of the players, in player order |
| Resolver.InitiativeOrderDependsOnPlayersOnly | src/engine/resolver.ts:10 | states with the same players give the same order |
| Resolver.ResolveNextStep | src/engine/resolver.ts:11 | the state is returned unchanged, with no events |
| JsonValue.Get | src/cards/schema.ts:25-26 | reading a field of a non-object, or a missing field, gives undefined |
| JsonValue.GetTypeNames | src/cards/schema.ts:32-36 | the type name is one of seven; "array", "object" and "number" are named exactly for their kinds |
| Symbols.Lookup | src/cards/symbols.ts:166-167 | a found symbol has exactly the name looked up |
| Symbols.GetSymbolMeta | src/cards/symbols.ts:169-170 | metadata exists iff the id is registered, and it is the registry entry of that id |
| Symbols.IsSymbolIdExactlyRegistryKeys | src/cards/symbols.ts:166-167 | a string is a symbol id iff it is a registry key |
| Symbols.RegistryHasTwelveKeys | src/cards/symbols.ts:62-147 | the registry has twelve entries |
| Symbols.LookupName | src/cards/symbols.ts:62-147 | looking up a symbol's name finds that symbol |
| Symbols.NameInjective | src/cards/symbols.ts:62-147 | different symbols have different names |
| Symbols.BaseSymbolIds | src/cards/symbols.ts:151 | the base symbol ids are all registry keys except WITH_TEXT |
| Symbols.WithTextIsTheOnlyWrapper | src/cards/symbols.ts:84-90 | only WITH_TEXT renders as a wrapper and has no icon |
| Symbols.TextCategoryMembers | src/cards/symbols.ts:62-147 | the text category is exactly TEXT_ACTIVE, TEXT_PASSIVE and WITH_TEXT |
| Symbols.IconKeyInjective | src/cards/symbols.ts:62-147 | no two symbols share an icon |
| Symbols.IconOwnerOfIcon | src/cards/symbols.ts:62-147 | each symbol's icon leads back to that symbol |
| Schema.ParseSymbol | src/cards/schema.ts:98-116 | success iff the value is a registered symbol with valid parameters, returning the value itself; otherwise exactly one error: "object" for a non-object, "string" for a non-string id, "known symbol id" for an unknown id, and otherwise the parameter error |
| Schema.ParseSymbols | src/cards/schema.ts:130-132 | one error or one kept symbol per item; the kept symbols are exactly the valid items, in order, errors or not; no errors iff every item is valid |
| Schema.ValidSymbols | src/cards/schema.ts:130-132 | the valid items of a list, no more of them than items |
| Schema.ValidSymbolsMultiplicity | src/cards/schema.ts:130-132 | each valid item is kept as often as it occurs in the list, and nothing else is kept |
| Schema.ParseFrame | src/cards/schema.ts:118-138 | no errors iff the frame is valid, and then it parses to the frame it describes; whenever it parses, its symbols are the valid symbols of the list; a non-object frame gives one error |
| Schema.ParseFrames | src/cards/schema.ts:159-163 | no errors iff every frame is valid, and then every frame is kept |
| Schema.ParseFramesKept | src/cards/schema.ts:159-163 | without errors the kept frames are the frames the items describe, in order |
| Schema.ParseBaseCard | src/cards/schema.ts:140-176 | fails iff the card is not an object, with the single "unknown card" error; the id is the card's own string id |
| Schema.ParseCard | src/cards/schema.ts:178-212 | a failure always carries at least one error |
| Schema.ParseBaseCardClean | src/cards/schema.ts:140-176 | the base parse of an object pushes nothing iff its top-level fields and frames are valid, and then it keeps every frame |
| Schema.ParseCardSucceedsIffValid | src/cards/schema.ts:178-212 | a card parses iff it meets the schema |
| Schema.ParsedCardFields | src/cards/schema.ts:178-212 | a parsed card carries the input's id, name, type, priority, rotation allowance, damage and knockback unchanged |
| Schema.ParsedCardOptionalFields | src/cards/schema.ts:165-207 | a parsed card keeps `art`, `activeText` and `passiveText` exactly when the input holds them as strings; a movement or rotation card keeps `damage` and `knockbackFactor` exactly when they are numbers |
| Schema.ParsedCardTimeline | src/cards/schema.ts:140-176 | a parsed card's timeline is the input's, frame by frame |
| Schema.ParameterlessSymbols | src/cards/schema.ts:63-85 | symbols without parameters are accepted only when `params` is absent |
| Schema.ParameterizedSymbolsNeedParams | src/cards/schema.ts:63-85 | every other symbol is rejected when `params` is absent |
| Schema.MoveParamsFields | src/cards/schema.ts:47-48 | move parameters are an object with one of the six directions and a finite number; an array or a non-finite distance is rejected |
| Schema.BlockParamsFields | src/cards/schema.ts:50 | block parameters are an object whose edge is one of the six directions; an array is rejected |
| Schema.AttackOffsetsOptional | src/cards/schema.ts:52-61 | with a known pattern, absent offsets and an empty list are accepted, and any other non-list is rejected |
| Schema.BaseInstanceIsValidSymbol | src/cards/schema.ts:87-91 | a base symbol instance is exactly a valid symbol whose id is not WITH_TEXT |
| Schema.WithTextDoesNotNest | src/cards/schema.ts:93-96 | the inner symbol of a valid WITH_TEXT is a base symbol, never another WITH_TEXT |
| Schema.NonObjectCardFails | src/cards/schema.ts:178-212 | a non-object card fails with exactly the one "unknown card" error |
| Schema.ParseEach | src/cards/schema.ts:214-229 | one result per card; a failure carries errors |
| Schema.ParseCards | src/cards/schema.ts:214-229 | success iff every card parses, then all cards in order; otherwise every card's errors in order, and at least one |
| NormalizeFrames.Insert | src/cards/normalizeFrames.ts:3-4 | inserting adds exactly that frame to the multiset |
| NormalizeFrames.InsertSorted | src/cards/normalizeFrames.ts:3-4 | insertion keeps a sorted sequence sorted |
| NormalizeFrames.SortByIndex | src/cards/normalizeFrames.ts:3-4 | the result is a permutation of the input, sorted by index |
| NormalizeFrames.NormalizeFrames | src/cards/normalizeFrames.ts:3-16 | the normalised frames are a sorted permutation of the input |
| NormalizeFrames.InsertKeepsOrderPerIndex | src/cards/normalizeFrames.ts:3-4 | insertion appends the new frame after the frames that share its index |
| NormalizeFrames.NormalizeFramesIsStable | src/cards/normalizeFrames.ts:3-4 | frames sharing an index keep their input order |
| NormalizeFrames.SortedIsFixed | src/cards/normalizeFrames.ts:3-16 | frames already in order come back unchanged |
| NormalizeFrames.NormalizeFramesIdempotent | src/cards/normalizeFrames.ts:3-16 | normalising twice is normalising once |
| NormalizeFrames.DuplicateCount | src/cards/normalizeFrames.ts:6-14 | every frame either adds a new index or is reported once as a duplicate |
| NormalizeFrames.DuplicateWarnings | src/cards/normalizeFrames.ts:6-14 | the loop warns for exactly the repeated indices, in order; warnings plus distinct indices make up all frames |
| ValidationErrorFormat.FormatValidationError | src/cards/formatValidationError.ts:3-4 | the line's exact length, its "[card] " head and ", got type" tail; it has no line break iff no field has one |
| ValidationErrorFormat.FormatValidationErrors | src/cards/formatValidationError.ts:6-7 | the message is empty iff there are no errors |
| ValidationErrorFormat.FormatValidationErrorsLines | src/cards/formatValidationError.ts:6-7 | when no field holds a line break, the message splits back into one line per error |
| ValidationErrorFormat.FormattersAgree | src/cards/schema.ts:239-242 | the standalone formatter and the schema's own produce the same text |
| TextLines.NoNewlineAppend | src/cards/formatValidationError.ts:3-4 | a concatenation has no line break iff neither part has one |
| TextLines.SplitJoinLines | src/cards/formatValidationError.ts:7 | lines without breaks, joined by '\n', split back into the same lines |
| TextLines.JoinLinesLength | src/cards/formatValidationError.ts:7 | the joined length is the sum of the lengths plus one separator between each pair |
| GameSession.FindIndex | src/context/GameSessionContext.tsx:29 | the index of the first player with the id, or -1 iff there is none |
| GameSession.UpsertPlayer | src/context/GameSessionContext.tsx:28-34 | the new player is in the result |
| GameSession.UpsertUnseenAppends | src/context/GameSessionContext.tsx:28-30 | an unseen player is appended at the end |
| GameSession.UpsertKnownReplacesFirst | src/context/GameSessionContext.tsx:29-33 | a known player replaces its first occurrence, and nothing else changes |
| GameSession.UpsertIdempotent | src/context/GameSessionContext.tsx:28-34 | upserting the same player twice is upserting it once |
| GameSession.SetCharacterIn | src/context/GameSessionContext.tsx:68-70 | every player with the id gets the character; ids, names and other players are kept |
| GameSession.JoinPlayerId | src/context/GameSessionContext.tsx:52-53 | a joiner is P2 without a session or when the local player is P1; otherwise the local id |
| GameSession.GameSessionProvider.constructor | src/context/GameSessionContext.tsx:37 | there is no session at first |
| GameSession.GameSessionProvider.CreateGame | src/context/GameSessionContext.tsx:39-49 | a new session for the game with the creator as the only player, P1 |
| GameSession.GameSessionProvider.JoinGame | src/context/GameSessionContext.tsx:51-61 | the session for the game, with the joiner's id as the local id and the joiner upserted into the existing players |
| GameSession.GameSessionProvider.SetCharacter | src/context/GameSessionContext.tsx:63-73 | without a session nothing changes; otherwise only the players' characters change, as `SetCharacterIn` says |
| GameSession.GameSessionProvider.ResetSession | src/context/GameSessionContext.tsx:75 | the session is cleared |
| GameSession.JoinListsLocalPlayer | src/context/GameSessionContext.tsx:51-61 | after a join the local player is listed under the name given |
| JoinGame.TrimStart | src/pages/JoinGamePage.tsx:13 | a suffix of the input with no leading JavaScript whitespace, and everything removed is whitespace; empty iff the input is all whitespace |
| JoinGame.TrimEnd | src/pages/JoinGamePage.tsx:13 | a prefix of the input with no trailing whitespace, and everything removed is whitespace; empty iff the input is all whitespace |
| JoinGame.Trim | src/pages/JoinGamePage.tsx:13 | a contiguous slice of the input with only whitespace cut on either side; empty iff the input is all whitespace; otherwise no whitespace at either end |
| JoinGame.BeforeFirst | src/pages/JoinGamePage.tsx:15 | the prefix up to the first separator, which it does not contain |
| JoinGame.AfterLast | src/pages/JoinGamePage.tsx:17-18 | the suffix after the last separator, which it does not contain |
| JoinGame.LastPathSegment | src/pages/JoinGamePage.tsx:15-20 | the segment holds no '/' and no '?'; it is a suffix of the part before the first '?', preceded there by '/' when it is shorter |
| JoinGame.ExtractGameId | src/pages/JoinGamePage.tsx:12-21 | the extracted id holds no '/' and no '?' |
| JoinGame.SegmentBeforeQuery | src/pages/JoinGamePage.tsx:15-20 | in `head/id?query`, with no '?' in the head and no '/' or '?' in the id, the path segment is the id, whatever the query holds |
| JoinGame.QueryDropped | src/pages/JoinGamePage.tsx:15 | an invite link followed by a query string still gives back the id |
| JoinGame.BlankGivesEmpty | src/pages/JoinGamePage.tsx:14 | blank input gives the empty id |
| JoinGame.InviteLinkRoundTrip | src/pages/JoinGamePage.tsx:12-21 | an invite link `url/lobby/id` gives back the id |
| JoinGame.BareIdKept | src/pages/JoinGamePage.tsx:20 | a bare id without separators or surrounding whitespace is kept as it is |
| JoinGame.HandleSubmit | src/pages/JoinGamePage.tsx:23-32 | refused iff the name is blank or no id was extracted; otherwise it stores a trimmed, non-blank name |
| JoinGame.SubmitInviteLink | src/pages/JoinGamePage.tsx:23-32 | submitting an invite link with a name goes to `/lobby/id` and stores the trimmed name |
| LobbyTable.FindPlayer | server/src/index.ts:85 | the index of the first player with the id, or -1 iff there is none |
| LobbyTable.CreateGameIn | server/src/index.ts:60-65 | adds exactly the new game, with no players, and keeps every other game |
| LobbyTable.Rejoined | server/src/index.ts:86-91 | a rejoining player is connected on the new socket with no grace deadline, keeps its id, role and character, takes a non-empty given name and otherwise keeps its name |
| LobbyTable.Newcomer | server/src/index.ts:103-111 | a newcomer is P2 iff a P1 is present |
| LobbyTable.JoinLobby | server/src/index.ts:79-117 | an unknown game is not found; the room is full iff the player is new and two are seated; a refused join changes nothing; a join records the socket's game and player |
| LobbyTable.DisconnectTarget | server/src/index.ts:141-147 | the first player, in the socket's recorded game, with the socket's recorded player id; none iff the socket never joined, either recorded id is empty, or that game or player is gone |
| LobbyTable.DisconnectWithoutTargetIgnored | server/src/index.ts:141-147 | a disconnect without a target changes nothing |
| LobbyTable.UpdateGameValid | server/src/index.ts:40 | storing a valid game keeps the lobby valid |
| LobbyTable.ReplacePlayerValid | server/src/index.ts:86-91 | replacing a player by a valid one with the same id and role keeps the game valid |
| LobbyTable.CreateGamePreservesValid | server/src/index.ts:55-67 | creating a game keeps the lobby valid and every existing player |
| LobbyTable.JoinPreservesValid | server/src/index.ts:79-117 | a join keeps the lobby valid: at most two players, the first P1, distinct ids |
| LobbyTable.SetNamePreservesValid | server/src/index.ts:119-126 | renaming keeps the lobby valid |
| LobbyTable.SetCharacterPreservesValid | server/src/index.ts:128-138 | choosing a character keeps the lobby valid |
| LobbyTable.DisconnectPreservesValid | server/src/index.ts:140-170 | a disconnect keeps the lobby valid |
| LobbyTable.GraceTimerPreservesValid | server/src/index.ts:157-168 | the grace timer keeps the lobby valid |
| LobbyTable.RejoinAddsNoPlayer | server/src/index.ts:85-97 | a known player's join adds nobody, reconnects the player on the new socket and cancels its grace timer |
| LobbyTable.RejoinChangesOnlyPlayer | server/src/index.ts:85-97 | a rejoin records the socket, removes only that player's timer, replaces only that player by its rejoined form, and keeps every other game |
| LobbyTable.RejoinKeepsNameWhenNoneGiven | server/src/index.ts:91 | a rejoin without a name, or with an empty one, keeps the old name |
| LobbyTable.RejoinTakesGivenName | server/src/index.ts:91 | a rejoin with a non-empty name renames the player |
| LobbyTable.NewcomerRole | server/src/index.ts:103-111 | a newcomer is appended after the others; the first player is P1, a second P2; its name defaults to "Player" only when none is given; it is connected, in status connected, on the joining socket, with no deadline and no character; the socket is recorded, timers and other games are kept |
| LobbyTable.SetNameChangesOnlyName | server/src/index.ts:119-126 | unknown game or player: nothing changes; otherwise only that player's name |
| LobbyTable.SetCharacterChangesOnlyCharacter | server/src/index.ts:128-138 | unknown game or player: nothing changes; otherwise only that player's character |
| LobbyTable.StaleDisconnectIgnored | server/src/index.ts:148 | a disconnect from a socket other than the player's current, non-empty one changes nothing |
| LobbyTable.DisconnectStartsGrace | server/src/index.ts:149-169 | the player is reconnecting until now + 15000 ms, `connected` is untouched, and the timer is armed for this socket; only that player changes, sockets and other games are kept |
| LobbyTable.GraceExpiryDisconnects | server/src/index.ts:157-168 | if nothing happens in between, the timer marks the player disconnected and removes itself |
| LobbyTable.RejoinCancelsGrace | server/src/index.ts:85-97 | a rejoin on a new socket before the timer fires makes the timer do nothing |
| LobbyTable.GraceTimerGuard | server/src/index.ts:157-162 | the timer changes nothing when the game or player is gone, the player is on another socket, or it is no longer reconnecting |
| LobbyTable.GraceTimerFires | server/src/index.ts:157-167 | otherwise the player becomes disconnected with no deadline, its timer is removed, and nothing else changes |
| LobbyTable.InviteUrl | server/src/index.ts:46 | the link starts with the client URL, continues with "/lobby/" and ends with the id |
| LobbyTable.InviteUrlRoundTrip | server/src/index.ts:44-46 | the join page extracts a drawn id back from its invite link |
| LobbyTable.LobbyServer.constructor | server/src/index.ts:40-41 | the server starts with no games, timers or sockets |
| LobbyTable.LobbyServer.CreateGame | server/src/index.ts:55-67 | draws until an unused id comes up, adds the empty game and returns its invite link, keeping validity |
| LobbyTable.LobbyServer.Join | server/src/index.ts:79-117 | the new state and the outcome are those of `JoinLobby`, and validity is kept |
| LobbyTable.LobbyServer.SetName | server/src/index.ts:119-126 | the new state is that of `SetNameIn`, and validity is kept |
| LobbyTable.LobbyServer.SetCharacter | server/src/index.ts:128-138 | the new state is that of `SetCharacterIn`, and validity is kept |
| LobbyTable.LobbyServer.Disconnect | server/src/index.ts:140-170 | the new state is that of `DisconnectIn`, and validity is kept |
| LobbyTable.LobbyServer.OnGraceTimer | server/src/index.ts:157-168 | the timer fires only while pending with the socket it captured; the new state is that of `GraceTimerIn`, and validity is kept |

## Left out

- Rendering and layout: React components, the SVG board, and the floating-point geometry (`axialToPixel`, hex polygon points, the board's view box). Only the integer decisions of `HexBoardPanel` are modelled.
- Firebase, Socket.IO transport, Express routing, room broadcasts (`emitLobbyUpdate`) and `GET /api/games/:gameId`. That route only reads the table.
- Clocks and timers: `Date.now()` is the `now` parameter. A pending `setTimeout` is the socket id it captured, stored under its timer key, and `clearTimeout` is removal from that map. The timer firing is the explicit `OnGraceTimer` call, which requires that timer to still be pending with the socket it captured: a cleared timer never fires.
- Randomness: `Math.random` ids are a parameter (`candidates` on the server, `gameId` in `CreateGame` on the client).
- LobbyTable.LobbyServer.CreateGame: requires some candidate to be unused, because the source's retry loop terminates only with probability one.
- Numbers are mathematical integers. `NonFinite` stands for NaN and the infinities, which `typeof` reports as "number" and the schema rejects. Fractional numbers and number-to-string for non-integers are not modelled.
- NormalizeFrames.DuplicateWarnings: returns the warned indices instead of writing to the console. The development-build switch `import.meta.env.DEV` is not modelled.
- NormalizeFrames.SortByIndex: the engine's sort algorithm is library code. It is specified by the stable-sort result any conforming implementation gives, built by insertion.
- JsonValue.GetType: its contract lives in the lemma `GetTypeNames`, so that the many error records built from it stay cheap to verify.
- LobbyTable.SetNameIn, LobbyTable.SetCharacterIn, LobbyTable.DisconnectIn, LobbyTable.GraceTimerIn: no contract of their own. Their behaviour is stated by `SetNameChangesOnlyName`, `SetCharacterChangesOnlyCharacter`, `StaleDisconnectIgnored`, `DisconnectStartsGrace`, `GraceTimerGuard`, `GraceTimerFires`, `GraceExpiryDisconnects` and the preservation lemmas.
- Engine.GetFacingOptions: for `maxSteps` above 6 the source's truncating `%` can offer negative directions. The model keeps that behaviour as written; `FacingOptionsNegativeBeyondSix` exhibits it.
- JoinGame.InviteLinkRoundTrip: requires only that the id's last character is not whitespace and that the client URL holds no '?'. Drawn ids meet both conditions.
- GameSession.GameSessionProvider: each transition is applied to the current session at once. In the source, `joinGame` builds its update from the `session` captured at the last render (src/context/GameSessionContext.tsx:52, 57), while `setCharacter` uses React's functional updater (:64). Two transitions fired in the same event can therefore see a stale session in the source, which the model does not capture.
- Local storage and navigation on the join page: the stored name and the target path are returned in `Proceed`.
- `sampleContent.ts`, `rulesEngine.ts` and the card type declarations are data and interfaces. They are used as types here and not otherwise modelled.
