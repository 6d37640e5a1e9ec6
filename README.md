# Classroom server core in Dafny

This project models the core of a Socket.IO server for a virtual classroom. Every connected
player starts in the shared room `General Server`. A teacher logs in and creates (or reuses) a
class room (`Kelas`, 37 places), students join it by id, and the teacher may split it into
discussion groups (`diskusi`) and call everyone back (`returnToKelas`). Inside a class room the
players move, sit on chairs, raise hands, share a whiteboard and answer quizzes (`soal` are
questions, `jawaban` answers). Around this state machine sit a per-key event throttler, an HTTP
client with a time-limited cache, a memory manager that sweeps stale entries, a circuit breaker,
the quiz grading service and the spreadsheet export of quiz results.

The model is organised like the program:

| module | program part | form |
|---|---|---|
| `Js` | JavaScript values, truthiness, `==`, `Math.round`, `Object.values` key order | values and lemmas |
| `Players` | `Player` | datatype, functions |
| `Lobbies` | `LobbyBase`, `GameLobby`, `GameLobbySettings` records and member lists | datatypes, functions |
| `Wire` | what the server sends: `emit`, `broadcast.to(room).emit` and `socket.join` as log entries, and their payloads | datatypes |
| `Registry` | the registry `World` (rooms, connections, emission log, the `lobbys` array's `length`) and the lobby entry/leave/switch steps | step functions |
| `Steps` | the remaining `Server` steps (disconnect, create, join, breakout tables, roster) | step functions |
| `Invariants` | the registry invariant `Coherent` and what each step keeps | lemmas |
| `Classes` | breakout groups, moving between groups and returning to class | lemmas |
| `GameServer` | class `Server`, whose fields are updated by one method per `Server`/lobby method | class |
| `Events` | the steps of the socket event handlers | step functions, lemmas |
| `Handlers` | the socket event handlers as methods updating a `Server` and an `EventThrottler` | methods |
| `Throttle` | class `EventThrottler` | class plus a value model |
| `Http` | class `HttpClient` and its cache | class plus a value model |
| `Memory` | class `MemoryManager` | class |
| `Breaker` | class `CircuitBreaker` (the object made by `createCircuitBreaker`) | class plus a value model |
| `Quiz` | `QuizService` grading, scoring and answer reports | functions, methods |
| `Submit` | the validation and normalisation inside `onSubmitSoal` / `onSubmitJawaban` | functions |
| `Export` | `ExcelExportService` sheet rows and export filters | functions, methods |

State that the program keeps in objects is kept in Dafny classes whose methods are proved
against value-level step functions (`ensures Abs() == Step(old(Abs()), …)`). The properties are
proved about those step functions. The registry invariant `Coherent` says several things:

- the general room exists and has no settings;
- the room order lists every room exactly once;
- every member of a room is a live connection that points back at that room;
- a live connection with a room pointer is a member of that room, exactly once.

Socket output is the log `World.log`. An entry is `Emit(socket, ToSelf | ToRoom(r), event,
payload)`, or `Join(socket, room)` for `socket.join`. This lets the contracts state what is
sent, to whom and in which order, and that a refusal sends `errorPesan` and changes nothing
else.

A step that can throw in the program ends in `Run<T>`: `Done(value)` or `Crash`. An uncaught
TypeError in a socket handler or a timer callback ends the process (`Code/ErrorHandler.js:11-21`),
so a method that meets one reports `crashed` and writes nothing to the registry.

`server.lobbys` is an array used as a dictionary (`Code/Server.js:11`). A room id is six
characters of nanoid's digits and capitals (`Code/Lobbies/LobbyBase.js:7`), so an id such as
"123456" is an array index, and storing a room under it sets `lobbys.length` to 123457 for good
(deleting the key does not shrink it). `World.length` records this. From then on a lookup of
'length' finds a non-zero number.

The teacher takes part in the breakout rotation. In the code (`Code/Server.js:180-199`) the
caller's position consumes a rotation slot, so the caller, tagged `<room>-0`, shares slot 0 with
whoever else lands there (`Classes.BreakoutTags`).

## Model

| member | source | states |
|---|---|---|
| Js.RoundDiv | Code/Services/QuizService.js:82 | `Math.round(num / den)` for `den > 0`, halves rounded up: the result `r` satisfies `2·den·r ≤ 2·num + den < 2·den·(r+1)` |
| Js.RoundDivBounds | Code/Services/ExcelExportService.js:50-51 | a rounded quotient of a sum lying between `lo·den` and `hi·den` lies between `lo` and `hi` |
| Js.LooseEqOnStrings | Code/Server.js:101 | `==` on two strings holds iff they are equal |
| Js.LooseEqOne | Code/Server.js:149 | `type == 1` holds exactly for the number 1, `true`, and strings whose numeric value is 1 |
| Js.PropertyOrderIsPermutation | Code/Server.js:98 | `Object.values` visits every key of the room object, each as often as it was inserted |
| Js.PropertyOrderMembers | Code/Server.js:98 | a key is visited iff it is a key of the object |
| Js.IndicesComeFirst | Code/Server.js:98 | array-index keys are visited before every other key |
| Js.PropertyOrderWithoutIndices | Code/Services/ExcelExportService.js:139 | without array-index keys, `Object.values` follows insertion order exactly |
| Js.SortByValueSorted | Code/Server.js:98 | the integer-index keys come out in ascending numeric order |
| Js.SortByValuePerm | Code/Server.js:98 | ordering the index keys loses and adds no key |
| Players.RandomInt | Code/Player.js:10-12 | `Math.floor(u · (hi + 1))` for a draw `0 ≤ u < 1` lies in `0..hi` |
| Players.NewPlayer | Code/Player.js:4-16 | a new player has the given id and position, username 'Default', serverID 0, lobby 0, status 'Alive', ready false, spawnLoc in {0,1}, type in {0,1,2} |
| Players.DisplayParses | Code/Player.js:18-21 | `displayPlayerInformation` is '(' + username + ':' + id + ')': the text splits back into the username and the 6-character id |
| Players.GenerateNewType | Code/Player.js:23-25 | `generateNewType` sets `type` and leaves every other field unchanged |
| Lobbies.NewSettings | Code/Lobbies/GameLobbySettings.js:2-14 | a new settings record stores gameMode, maxPlayers and idGuru as passed; joinable, deletable and quiz are true; whiteboard false; the four whiteboard texts are '' |
| Lobbies.NewRoom | Code/Lobbies/LobbyBase.js:6-10 | a new room has no members, no breakout count, and the settings it is given (`GameLobby.js:7-10`) |
| Lobbies.CanEnterLobbyMeans | Code/Lobbies/GameLobby.js:14-24 | `canEnterLobby` holds iff members + 1 ≤ maxPlayers |
| Lobbies.IndexOf | Code/Lobbies/LobbyBase.js:49 | `indexOf` is -1 iff the id is absent, and otherwise the position of its first occurrence |
| Lobbies.RemoveAbsent | Code/Lobbies/LobbyBase.js:49-53 | leaving a room one is not in leaves the member list unchanged |
| Lobbies.RemoveOne | Code/Lobbies/LobbyBase.js:49-51 | `splice(indexOf(x), 1)` removes exactly one occurrence of `x`, and keeps the order of the members before and after it |
| Lobbies.RemoveNoDup | Code/Lobbies/LobbyBase.js:49-51 | on a list without repeats, the removal drops exactly `x` and keeps everyone else |
| Lobbies.RemoveIdempotent | Code/Lobbies/LobbyBase.js:41-54 | a second leave changes nothing |
| Registry.Enter | Code/Lobbies/LobbyBase.js:14-39 | `onEnterLobby` / `onEnterLobbyGeneral` append the id at the end with no duplicate check, and point `player.lobby` and `connection.lobby` at the room; `ready` becomes true only in `onEnterLobby`; nothing else changes |
| Registry.Leave | Code/Lobbies/LobbyBase.js:41-54 | the base `onLeaveLobby` removes the first occurrence from the list, clears `connection.lobby`, keeps `player.lobby`, and changes no other room or connection |
| Registry.OnLeave | Code/Lobbies/GameLobby.js:54-60 | a class room's `onLeaveLobby` has the same effect on rooms and connections as the base version (`removePlayer`'s broadcast goes to the log, `GameLobby.js:93-98`) |
| Registry.GameEnter | Code/Lobbies/GameLobby.js:26-52 | `GameLobby.onEnterLobby` changes no other room or connection; on success the entering connection ends as `Enter` leaves it, on refusal it is unchanged |
| Registry.Connect | Code/Server.js:27-46 | (definition) `onConnected` files the connection and enters the general room; proved about it in `Invariants.ConnectIsEnter`, `ConnectKeeps` and `ConnectEffects` |
| Registry.SwitchLeave | Code/Server.js:141-144 | the first half of `onSwitchLobby` keeps the room keys, connection keys and room order (content in `Invariants.SwitchLeaveLists`) |
| Registry.Switch | Code/Server.js:137-146 | `onSwitchLobby` creates and deletes no room or connection (content in `Invariants.SwitchKeeps`, `SwitchFrame`, `SwitchPeople`) |
| Registry.SwitchLeaves | Code/Server.js:141-144 | after the leave the registry is coherent and the switching connection is in no member list |
| Registry.LeaveDetaches | Code/Lobbies/LobbyBase.js:41-54 | leaving the room a connection points at keeps the registry coherent and leaves the connection in no room |
| Registry.LeaveRooms | Code/Lobbies/LobbyBase.js:49-51 | after the leave every room is well formed and none lists the leaver |
| Registry.LeaveConns | Code/Lobbies/LobbyBase.js:47 | after the leave every connection is well formed |
| Registry.LeavePointerIrrelevant | Code/Lobbies/LobbyBase.js:47 | where `connection.lobby` pointed before a leave makes no difference to its result |
| Registry.SameShapeKeeps | Code/Server.js:8-16 | changes that keep member lists, settings presence and the players' ids, rooms and positions keep the registry coherent |
| Steps.Forget | Code/Server.js:53 | `delete connections[id]` removes exactly that connection |
| Steps.CloseRoom | Code/Server.js:80 | `delete lobbys[r]` removes exactly that room and leaves the array's `length` |
| Steps.Disconnect | Code/Server.js:48-86 | the room closed by `onDisconnected` is neither missing nor the general room (full effect in `Invariants.DisconnectEffects`) |
| Steps.Stamp | Code/Server.js:99-100 | the scan sets `whiteboardID` of a class room and leaves members, counts and the other settings as they were |
| Steps.StampKeysAll | Code/Server.js:98-106 | after the scan, every class room has `whiteboardID = idGuru`, whatever order the keys are visited in |
| Steps.Prepare | Code/Server.js:90-106 | (definition) the writes of `onCreateLobby` before the delay; proved about it in `Invariants.CreateLobbyEffects` and `CreateLobbyKeeps` |
| Steps.Decide | Code/Server.js:96-106 | (definition) the verdict of the scan, read before the delay; proved about it in `Invariants.DecideFinds`, `DecideLast` and `DecideAvoidsGeneral` |
| Steps.CompleteCreateLobby | Code/Server.js:107-115 | (definition) the delayed half of `onCreateLobby`, crashes included; proved about it in `Invariants.CompleteCrashes` and `Invariants.Complete*` |
| Steps.CompleteCreateLobbyChecked | Code/Server.js:107-115 | (definition) the delayed half with the two checks the code lacks (Findings); proved about it in `Invariants.CompleteCheckedSafe` |
| Steps.LastMatch | Code/Server.js:98-106 | the room the scan settles on teaches `idGuru`, and no later room in iteration order does |
| Steps.Register | Code/Server.js:111-112 | `lobbys[gamelobby.id] = gamelobby` adds the room and appends its key to the iteration order; an array-index id raises `length` past the index, as ECMAScript arrays do, and any other id leaves it |
| Steps.NewRoomKeeps | Code/Server.js:111-112 | registering an empty class room under a fresh id keeps the registry coherent |
| Steps.Joining | Code/Server.js:125-126 | setting `type` and `username` keeps the registry's shape |
| Steps.JoinLobby | Code/Server.js:119-135 | when `onJoinLobby` does not throw it creates and deletes no room or connection and keeps the room order (when it throws: `Invariants.JoinLobbyCrashes`; branches in `Invariants.JoinLobby*`) |
| Steps.JoinLobbyChecked | Code/Server.js:122-124 | (definition) the join with the lookup limited to class rooms of the registry (Findings); proved about it in `Invariants.JoinLobbyCheckedSafe` |
| Steps.Assignments | Code/Server.js:180-199 | the breakout table `hasil` has one entry per member |
| Steps.Retag | Code/Server.js:182-188 | re-tagging a member keeps its id, room and position |
| Steps.Retagged | Code/Server.js:180-199 | the breakout loop retags members only: every connection keeps its id, room and position |
| Steps.Breakout | Code/Server.js:148-205 | (definition) `onSwitchLobbyDiskusi`; proved about it in `Classes.BreakoutRefuses`, `BreakoutClosesRoom`, `BreakoutTags`, `BreakoutAnnounces` and `BreakoutKeeps` |
| Steps.MoveToDiskusi | Code/Server.js:207-217 | (definition) `onMoveToDiskusi`; proved about it in `Classes.MoveToDiskusiEffects` |
| Steps.Roster | Code/Server.js:226-236 | the `moveRuangan` roster has one seat per member |
| Steps.MoveRuangan | Code/Server.js:219-240 | (definition) `onMoveRuangan`; proved about it in `Classes.MoveRuanganRoster` |
| Steps.ReturnToKelas | Code/Server.js:242-252 | (definition) `onReturnToKelas`; proved about it in `Classes.ReturnToKelasOpens` and `ReturnToKelasIdempotent` |
| Steps.DrawWhiteboard | Code/Server.js:254-257 | (definition) `onDrawWhiteboard`; proved about it in `Classes.DrawWhiteboardStores` |
| Steps.SubmitSoal | Code/Server.js:259-361 | (definition) `onSubmitSoal` with the store reply as input; proved about it in `Events.SubmitSoalChecksFirst` and `Submit.AcceptedQuizIsStored` |
| Steps.SubmitJawaban | Code/Server.js:363-412 | (definition) `onSubmitJawaban`: the normalised body posted, or nothing for a connection in no room; proved about it in `Events.SubmitJawabanPosts`, `Submit.NormaliseCases` and `Submit.NormalisedCodeTruthy` |
| Invariants.InitialCoherent | Code/Server.js:9-16 | the new server has only the general room, empty and without settings, and is coherent |
| Invariants.MemberNamesRoom | Code/Lobbies/LobbyBase.js:21-25 | a member of a room is live and both its pointers name that room |
| Invariants.OnlyNamedRoomHolds | Code/Server.js:144 | a connection is in no member list other than the room its player names |
| Invariants.EnterKeeps | Code/Lobbies/LobbyBase.js:14-39 | entering a room from no room keeps the registry coherent |
| Invariants.GameEnterKeeps | Code/Lobbies/GameLobby.js:26-52 | `GameLobby.onEnterLobby` accepts iff the room has fewer than 50 members (maxPlayers is not checked); on acceptance the id is appended and both pointers and `ready` are set; on refusal only `errorPesan` with 'Lobby is full…' is sent; the registry stays coherent |
| Invariants.SwitchLeaveLists | Code/Server.js:141-144 | the leave removes the connection from every room's list and changes nothing else |
| Invariants.SwitchKeeps | Code/Server.js:137-146 | a switch ends in the target iff the target (without the switcher) has fewer than 50 members; a refused switch leaves the connection in no room; coherence is kept |
| Invariants.SwitchFrame | Code/Server.js:137-146 | the switch removes the connection from the old room and changes no settings; an emptied old room is not torn down |
| Invariants.SwitchPeople | Code/Server.js:137-146 | the switch changes no other connection, and the switcher stays the same person |
| Invariants.SwitchTearsNothingDown | Code/Server.js:137-146 | a switch deletes no room, even one it leaves empty, and keeps the room order |
| Invariants.ConnectIsEnter | Code/Server.js:27-46 | `onConnected` is filing the connection, `socket.join`, then `onEnterLobbyGeneral` |
| Invariants.ConnectKeeps | Code/Server.js:27-46 | admitting a fresh id keeps the registry coherent |
| Invariants.ConnectEffects | Code/Server.js:32-43 | after `onConnected` the connection is filed under the player's id, is the last member of 'General Server', and both pointers name that room |
| Invariants.ForgetLeaveKeeps | Code/Server.js:53-68 | removing the connection and then leaving its room keeps the registry coherent and lists the id nowhere |
| Invariants.ForgetKeeps | Code/Server.js:53-67 | a connection whose room is missing is simply forgotten, coherently |
| Invariants.CloseRoomKeeps | Code/Server.js:71-81 | deleting an empty non-general room keeps the registry coherent |
| Invariants.DisconnectKeeps | Code/Server.js:48-86 | `onDisconnected` keeps the registry coherent and lists the id in no room |
| Invariants.DisconnectEffects | Code/Server.js:53-81 | the id leaves `connections`; the room named by `player.lobby` is deleted exactly when it is not the general room and ends with no members (`deletable` is not consulted); other rooms are unchanged; `lobbys.length` is kept; the log gains the 'disconnected' broadcast, twice for a class room |
| Invariants.JoinLobbyCrashes | Code/Server.js:119-146 | `onJoinLobby` throws iff the key is 'General Server' (a `LobbyBase` without `canEnterLobby`), or is no room but a property every array inherits, or is 'length' while the array's length is not 0, or the join is allowed and the room the player names was deleted (`Server.js:144`) |
| Invariants.DigitIdIsIndex | Code/Lobbies/LobbyBase.js:7 | the nanoid id "123456" is an array index with value 123456 |
| Invariants.IndexRoomArmsLength | Code/Server.js:111-123 | once a class room is stored under an array-index id, a join asking for 'length' throws as written and gets `errorPesan` from the corrected join |
| Invariants.JoinGeneralRoomCrashes | Code/Server.js:122-123 | joining 'General Server' throws as written, while the corrected join answers a bare `errorPesan` (Findings) |
| Invariants.JoinLobbyRefuses | Code/Server.js:122-133 | an unknown key that is no inherited array property (nor 'length' once the array is longer than 0), or a non-joinable or full class room, gets `errorPesan` and nothing else changes |
| Invariants.JoinLobbyCheckedSafe | Code/Server.js:119-135 | the corrected join throws iff it is allowed and the room the player names is gone, answers every key that is not an open class room with a bare `errorPesan`, and agrees with the join as written wherever that one does not throw |
| Invariants.JoinLobbyIsSwitch | Code/Server.js:124-127 | an allowed join of a player whose room still exists sets `type` and `username` and then switches |
| Invariants.JoinLobbyKeeps | Code/Server.js:119-135 | a join that does not throw keeps the registry coherent |
| Invariants.JoinLobbyAccepts | Code/Server.js:124-127 | an allowed join that does not throw gives the player the new type and name and, for a room of at most 50 seats, makes it the last member of the target |
| Invariants.SwitchAdmits | Code/Server.js:124-127 | the switch of an allowed join admits the player with the requested type and name |
| Invariants.PlayerEditKeeps | Code/EventHandlers/PlayerEventHandler.js:10-11 | editing a player without touching its id, room or position presence keeps coherence |
| Invariants.SettingsEditKeeps | Code/EventHandlers/WhiteboardEventHandler.js:8 | editing room settings without touching member lists keeps coherence |
| Invariants.CreateLobbyKeeps | Code/Server.js:88-106 | the synchronous part of `onCreateLobby` keeps coherence |
| Invariants.CreateLobbyEffects | Code/Server.js:90-106 | the caller becomes type 1 with username `serverName` and `serverID` only when truthy; every class room's `whiteboardID` becomes `idGuru`; the general room, room set and log are unchanged |
| Invariants.LastMatchFound | Code/Server.js:98-104 | the scan finds a room iff some room teaches `idGuru` |
| Invariants.DecideFinds | Code/Server.js:96-106 | `found` is decided before the delay: it holds iff some room teaches `idGuru` |
| Invariants.DecideLast | Code/Server.js:96-106 | `idTemp` stays 'a' when nothing is found, and is otherwise the last teaching room in `Object.values` order |
| Invariants.DecideAvoidsGeneral | Code/Server.js:98-104 | the scan never settles on 'General Server', whose `settings` is undefined |
| Invariants.CompleteCrashes | Code/Server.js:107-115 | the timer throws iff the teacher has disconnected during the delay (its socket nulled by `MemoryManager.js:108-125`), the room the teacher names was deleted (and is not the new room), or the room found was deleted |
| Invariants.TeacherLeavingCrashes | Code/Server.js:107-115 | a teacher who disconnects within the 2000 ms makes the timer throw as written; the corrected timer leaves the registry as it is (Findings) |
| Invariants.CompleteCheckedSafe | Code/Server.js:107-115 | the corrected timer throws only for a live teacher whose own room is gone, and always then unless that room is the new one; it agrees with the timer as written wherever that one does not throw; a found room deleted meanwhile is replaced by a new class room |
| Invariants.CompleteIsSwitch | Code/Server.js:110-113 | without a match, the timer registers `GameLobby('Kelas', 37, idGuru)` and, unless it throws, switches the live teacher into it |
| Invariants.CompleteCreatesClass | Code/Server.js:110-113 | unless the timer throws, the new class room then holds exactly the teacher and the switch succeeds |
| Invariants.CompleteRegisters | Code/Server.js:111-112 | unless the timer throws, the new room's key is appended to the order, with settings ('Kelas', 37, idGuru) |
| Invariants.CompleteReuses | Code/Server.js:108-109 | with a match, a timer that does not throw found the room still there, and switches the teacher into it coherently |
| Classes.GroupCountFormula | Code/Server.js:159-171 | the group count is ⌈playerCount / 6⌉ for 1..36 others, 0 otherwise, and never above 6 |
| Classes.SlotIsMod | Code/Server.js:195-198 | the `indexNewLobby` counter at step i is i mod N for N ≥ 1, and i when N = 0 (it never wraps) |
| Classes.RetaggedAt | Code/Server.js:180-199 | the loop's final table gives member i the tag of slot i, and leaves non-members alone |
| Classes.RetaggedTags | Code/Server.js:180-199 | member i gets `<room>-(i mod N)`, the caller `<room>-0`, every member `isSit = 'Null'` |
| Classes.BreakoutRefuses | Code/Server.js:149 | without more than one member or with a caller whose type is not `== 1` nothing happens at all |
| Classes.BreakoutClosesRoom | Code/Server.js:149-173 | the breakout sets deletable, joinable and quiz false and listDiskusi = N, keeps the members, and touches no other room |
| Classes.BreakoutTags | Code/Server.js:180-199 | in a coherent registry, member i gets tag `<room>-(i mod N)` (or `<room>-i` when N = 0) and the caller `<room>-0`, with the caller's position consuming a slot; non-members are unchanged |
| Classes.BreakoutAnnounces | Code/Server.js:193-203 | `buatDiskusi` goes to self then room, with one entry per member in member order, and each entry carries the tag just written to that member |
| Classes.BreakoutKeeps | Code/Server.js:148-205 | the breakout keeps coherence |
| Classes.MoveToDiskusiEffects | Code/Server.js:207-217 | `onMoveToDiskusi` sets only the caller's `lobbyDiskusi` and broadcasts `{idServer, idPlayer}` to the room |
| Classes.MoveRuanganRoster | Code/Server.js:219-240 | `onMoveRuangan` also sends the caller one seat per member, in order, with each member's tag, id, position and seat after the update |
| Classes.ReturnToKelasOpens | Code/Server.js:242-252 | `onReturnToKelas` sets deletable, joinable and quiz true (no role check) and sends `returnToKelas` to self and room |
| Classes.ReturnToKelasIdempotent | Code/Server.js:242-252 | a second `returnToKelas` changes no state |
| Classes.BreakoutThenReturn | Code/Server.js:155-157 | after a breakout quiz is off, and after returning (`Server.js:245-247`) it is on again |
| Classes.DrawWhiteboardStores | Code/Server.js:254-257 | `onDrawWhiteboard` replaces `whiteboardData` with the blob and broadcasts it |
| GameServer.Server.constructor | Code/Server.js:9-16 | the new server holds the initial registry |
| GameServer.Server.OnEnterLobby | Code/Lobbies/LobbyBase.js:14-26 | updates the fields as `Registry.Enter` with ready set |
| GameServer.Server.OnEnterLobbyGeneral | Code/Lobbies/LobbyBase.js:28-39 | updates the fields as `Registry.Enter` with ready untouched |
| GameServer.Server.OnLeaveLobby | Code/Lobbies/GameLobby.js:54-60 | updates the fields as `Registry.OnLeave` |
| GameServer.Server.SpawnPlayers | Code/Lobbies/GameLobby.js:62-91 | the loop sends the joiner its descriptor, broadcasts it, then sends one descriptor per other member carrying the joiner's `serverID`; rooms and connections are untouched |
| GameServer.Server.OnEnterGameLobby | Code/Lobbies/GameLobby.js:26-52 | updates the fields and returns the boolean as `Registry.GameEnter` |
| GameServer.Server.OnConnected | Code/Server.js:27-46 | keeps the invariant and admits the new player as `Registry.Connect` |
| GameServer.Server.OnDisconnected | Code/Server.js:48-86 | keeps the invariant, updates the registry as `Steps.Disconnect`, counts one player clean-up and one lobby clean-up exactly when the room closes |
| GameServer.Server.StampRooms | Code/Server.js:98-106 | the `Object.values(...).map` loop returns the stamped rooms, `found`, and the last matching key |
| GameServer.Server.OnCreateLobby | Code/Server.js:88-106 | keeps the invariant, updates the registry as `Steps.Prepare`, and returns the decision taken before the delay |
| GameServer.Server.PrepareCreate | Code/Server.js:90-106 | as `OnCreateLobby`, for a registry whose order lists its rooms |
| GameServer.Server.MakeTeacher | Code/Server.js:90-94 | the caller becomes type 1 with username `serverName`, and `serverID` only when truthy |
| GameServer.Server.CreateLobbyTimeout | Code/Server.js:107-115 | keeps the invariant; reports `crashed` exactly when `Steps.CompleteCreateLobby` throws, leaving the registry unchanged, and otherwise reuses or creates the room as it does |
| GameServer.Server.AddRoom | Code/Server.js:111-112 | registers the room as `Steps.Register`, lengthening the array for an index key past its end |
| GameServer.Server.OnJoinLobby | Code/Server.js:119-135 | keeps the invariant; reports `crashed` exactly when `Steps.JoinLobby` throws, leaving the registry unchanged, and otherwise updates the registry as it does |
| GameServer.Server.TakeIdentity | Code/Server.js:125-126 | sets type and username as `Steps.Joining` |
| GameServer.Server.OnSwitchLobby | Code/Server.js:137-146 | keeps the invariant and updates the registry as `Registry.Switch` |
| GameServer.Server.LeaveForSwitch | Code/Server.js:141-144 | updates the registry as `Registry.SwitchLeave` |
| GameServer.Server.AssignGroups | Code/Server.js:180-199 | the loop with its wrapping counter computes the re-tagged table and `hasil` of `Steps.Retagged` / `Steps.Assignments` |
| GameServer.Server.OnSwitchLobbyDiskusi | Code/Server.js:148-205 | keeps the invariant and updates the registry as `Steps.Breakout` |
| GameServer.Server.SplitRoom | Code/Server.js:150-203 | the splitting branch, as `Steps.Breakout` |
| GameServer.Server.OnMoveToDiskusi | Code/Server.js:207-217 | keeps the invariant and updates the registry as `Steps.MoveToDiskusi` |
| GameServer.Server.CollectSeats | Code/Server.js:226-236 | the roster loop returns `Steps.Roster` |
| GameServer.Server.OnMoveRuangan | Code/Server.js:219-240 | keeps the invariant and updates the registry as `Steps.MoveRuangan` |
| GameServer.Server.OnReturnToKelas | Code/Server.js:242-252 | keeps the invariant and updates the registry as `Steps.ReturnToKelas` |
| GameServer.Server.OnDrawWhiteboard | Code/Server.js:254-257 | keeps the invariant and updates the registry as `Steps.DrawWhiteboard` |
| GameServer.Server.OnSubmitSoal | Code/Server.js:259-361 | keeps the invariant; emits and returns the store request as `Steps.SubmitSoal` |
| GameServer.Server.OnSubmitJawaban | Code/Server.js:363-412 | returns the normalised answer request of `Steps.SubmitJawaban`, or nothing when the promise rejects for a connection in no room, changing nothing |
| Events.KeysOfOthersSurvive | Code/EventHandlers/PlayerEventHandler.js:51-52 | for distinct 6-character ids, neither throttle prefix of one player is a prefix of the other player's keys |
| Events.Perform | Code/EventThrottler.js:13-23 | (definition) a throttled callback run against the registry: the position broadcast or `onDrawWhiteboard` |
| Events.BroadcastPosition | Code/EventHandlers/PlayerEventHandler.js:16 | (definition) the position broadcast; proved about it in `Events.BroadcastCarriesCurrentPosition` |
| Events.UpdatePosition | Code/EventHandlers/PlayerEventHandler.js:6-22 | (definition) 'updatePosition'; proved about it in `Events.UpdatePositionWrites` |
| Events.DisconnectCleansOnlyItsKeys | Code/EventHandlers/PlayerEventHandler.js:49-55 | the two clean-ups on disconnect remove the leaver's position and whiteboard throttles and keep every other player's entries |
| Events.PlayerWriteKeeps | Code/EventHandlers/PlayerEventHandler.js:10-11 | a handler's write to its own player changes no other connection and no room |
| Events.UpdatePositionWrites | Code/EventHandlers/PlayerEventHandler.js:6-22 | the position is written whether or not the broadcast runs; only the position changes; the log grows by one broadcast exactly when the throttle ran it |
| Events.BroadcastCarriesCurrentPosition | Code/EventHandlers/PlayerEventHandler.js:16 | the (possibly deferred) broadcast goes to the room with the player's position at the time it runs |
| Events.UpdateKursiSeat | Code/EventHandlers/PlayerEventHandler.js:25-33 | throws iff the connection is in no room; otherwise `isSit` becomes 'Null' for a falsy `data.isSit` and `data.idChair` otherwise, nothing else changes, and `data` is broadcast |
| Events.UpdateKursi | Code/EventHandlers/PlayerEventHandler.js:25-33 | (definition) 'updateKursi', a crash for a connection in no room; proved about it in `Events.UpdateKursiSeat` |
| Events.RaiseHand | Code/EventHandlers/PlayerEventHandler.js:36-40 | (definition) 'raiseHand', a crash for a connection in no room; proved about it in `Events.SignalsOnlyBroadcast` |
| Events.GlobalMute | Code/EventHandlers/PlayerEventHandler.js:42-46 | (definition) 'globalMute', a crash for a connection in no room; proved about it in `Events.SignalsOnlyBroadcast` |
| Events.SignalsOnlyBroadcast | Code/EventHandlers/PlayerEventHandler.js:36-46 | `raiseHand` and `globalMute` throw iff the connection is in no room, and otherwise change no state and add one broadcast to the room |
| Events.BoardReport | Code/EventHandlers/WhiteboardEventHandler.js:61-73 | `checkState` reports `whiteboard` as 1/0, the `whiteboardID`, and `whiteboardData` in all three data fields |
| Events.SettingsWriteKeeps | Code/EventHandlers/WhiteboardEventHandler.js:8 | a settings write changes only the caller's room settings |
| Events.SetWhiteboardReported | Code/EventHandlers/WhiteboardEventHandler.js:6-21 | open/close set `whiteboard` true/false and nothing else, the report then says 1/0, and self and room are told |
| Events.SetWhiteboard | Code/EventHandlers/WhiteboardEventHandler.js:6-21 | (definition) 'setWhiteboard'; proved about it in `Events.SetWhiteboardReported` |
| Events.ClearKeepsTextAndShape | Code/EventHandlers/WhiteboardEventHandler.js:24-30 | clearing sets `whiteboardData` to '' and keeps `textData` and `shapeData` |
| Events.ClearWhiteboard | Code/EventHandlers/WhiteboardEventHandler.js:24-30 | (definition) 'clearWhiteboard'; proved about it in `Events.ClearKeepsTextAndShape` |
| Events.WbChangeReported | Code/EventHandlers/WhiteboardEventHandler.js:51-58 | `wbChange` sets only `whiteboardID`, and the report returns the value received |
| Events.WbChange | Code/EventHandlers/WhiteboardEventHandler.js:51-58 | (definition) 'wbChange'; proved about it in `Events.WbChangeReported` |
| Events.CheckState | Code/EventHandlers/WhiteboardEventHandler.js:61-73 | (definition) 'checkState'; proved about it in `Events.QueriesReadOnly` and `Events.BoardReport` |
| Events.ShowWhiteboard | Code/EventHandlers/WhiteboardEventHandler.js:45-48 | (definition) 'showWhiteboard'; proved about it in `Events.QueriesReadOnly` |
| Events.QueriesReadOnly | Code/EventHandlers/WhiteboardEventHandler.js:45-73 | `checkState` and `showWhiteboard` change no state and answer only the caller; the report's text field is `whiteboardData`, not `textData` |
| Events.BlobsStored | Code/EventHandlers/WhiteboardEventHandler.js:76-89 | text and shape blobs are stored in `textData` / `shapeData` and nothing else changes |
| Events.TextWhiteboard | Code/EventHandlers/WhiteboardEventHandler.js:76-81 | (definition) 'textWhiteboard'; proved about it in `Events.BlobsStored` |
| Events.ShapeWhiteboard | Code/EventHandlers/WhiteboardEventHandler.js:84-89 | (definition) 'shapeWhiteboard'; proved about it in `Events.BlobsStored` |
| Events.CreateLobbyEvent | Code/EventHandlers/LobbyEventHandler.js:6-29 | (definition) 'createLobby' with the login outcome as input; proved about it in `Events.CreateLobbyNeedsCredentials`, `FailedLoginChangesNothing` and `LoginMakesTeacher` |
| Events.CreateLobbyNeedsCredentials | Code/EventHandlers/LobbyEventHandler.js:7-28 | with a falsy name or password the result does not depend on the login outcome (no auth call), and is `gagalLogin` only |
| Events.FailedLoginChangesNothing | Code/EventHandlers/LobbyEventHandler.js:20-24 | a failed login sends `gagalLogin` and changes nothing else |
| Events.LoginMakesTeacher | Code/EventHandlers/LobbyEventHandler.js:9-18 | a successful login sends `suksesLogin`, makes the caller type 1 named by the response, takes `serverID` from the response's truthy id, and starts the create with `idGuru` = the response's username |
| Events.JoinLobbyEvent | Code/EventHandlers/LobbyEventHandler.js:32-38 | (definition) 'joinLobby'; proved about it in `Events.JoinLobbyForwards` and `JoinLobbyNeedsAllFields` |
| Events.JoinLobbyForwards | Code/EventHandlers/LobbyEventHandler.js:32-34 | with name, idLobby and type truthy the event is `onJoinLobby`, a crash included |
| Events.JoinLobbyNeedsAllFields | Code/EventHandlers/LobbyEventHandler.js:33-37 | a falsy name or idLobby, or type 0, gets `errorPesan` and nothing else, and never throws |
| Events.PlayerListIsRoster | Code/EventHandlers/LobbyEventHandler.js:58-73 | `playerList` throws iff the connection is in no room, and otherwise changes no state and answers one `{username, id}` per member in member order |
| Events.SubmitJawabanPosts | Code/Server.js:363-378 | `submitJawaban` posts nothing iff the connection is in no room; otherwise the body carries the sender's name and the room its player names, and a truthy id or code gives a truthy `kodeSoal` |
| Events.ListPlayers | Code/EventHandlers/LobbyEventHandler.js:58-73 | (definition) 'playerList', a crash for a connection in no room; proved about it in `Events.PlayerListIsRoster` |
| Events.SubmitSoalChecksFirst | Code/Server.js:278-348 | a rejected form sends its `errorPesan` message and posts nothing; an accepted form posts the titled one-question quiz; the room hears `submitSoal` (carrying the stored code) iff the form passes and the store answers |
| Events.QuizGate | Code/EventHandlers/QuizEventHandler.js:4-10 | `submitSoal` is `onSubmitSoal` when `quiz` is on, and otherwise `errorPesan` with nothing posted |
| Events.SubmitSoalEvent | Code/EventHandlers/QuizEventHandler.js:4-10 | (definition) 'submitSoal' behind the quiz gate; proved about it in `Events.QuizGate` and `QuizGateAcrossBreakout` |
| Events.QuizGateAcrossBreakout | Code/EventHandlers/QuizEventHandler.js:5 | after a breakout `submitSoal` is refused; after `returnToKelas` it is accepted again (`Server.js:157, 245-247`) |
| Events.FreshClassAcceptsQuiz | Code/Lobbies/GameLobbySettings.js:8 | a class room the create timer makes, when it does not throw, accepts `submitSoal` at once (`QuizEventHandler.js:5`) |
| Handlers.BroadcastPositionNow | Code/EventHandlers/PlayerEventHandler.js:16 | keeps the invariant and broadcasts as `Events.BroadcastPosition` |
| Handlers.RunAction | Code/EventThrottler.js:13-23 | runs an action, now or when its timer fires, against the server as `Events.Perform` |
| Handlers.FireTimer | Code/EventThrottler.js:21-24 | firing a due timer updates the throttler as `Throttle.FireStep` and runs the stored action |
| Handlers.OnUpdatePosition | Code/EventHandlers/PlayerEventHandler.js:6-22 | throttles key `position_<id>` at 100 ms as `Throttle.ThrottleStep`, then writes the position and broadcasts only when the throttle ran |
| Handlers.OnUpdateKursi | Code/EventHandlers/PlayerEventHandler.js:25-33 | reports `crashed` exactly when `Events.UpdateKursi` throws (a connection in no room), leaving the server unchanged, and otherwise updates the server as it does |
| Handlers.OnRaiseHand | Code/EventHandlers/PlayerEventHandler.js:36-40 | reports `crashed` exactly when `Events.RaiseHand` throws (a connection in no room), leaving the server unchanged, and otherwise updates the server as it does |
| Handlers.OnGlobalMute | Code/EventHandlers/PlayerEventHandler.js:42-46 | reports `crashed` exactly when `Events.GlobalMute` throws (a connection in no room), leaving the server unchanged, and otherwise updates the server as it does |
| Handlers.OnDisconnect | Code/EventHandlers/PlayerEventHandler.js:49-55 | cleans both throttle prefixes of the player, then runs `onDisconnected` |
| Handlers.OnSetWhiteboard | Code/EventHandlers/WhiteboardEventHandler.js:6-21 | updates the server as `Events.SetWhiteboard` |
| Handlers.OnClearWhiteboard | Code/EventHandlers/WhiteboardEventHandler.js:24-30 | updates the server as `Events.ClearWhiteboard` |
| Handlers.OnDrawWhiteboardEvent | Code/EventHandlers/WhiteboardEventHandler.js:33-42 | throttles key `whiteboard_<id>` at 50 ms and runs `onDrawWhiteboard` only when the throttle ran it |
| Handlers.OnShowWhiteboard | Code/EventHandlers/WhiteboardEventHandler.js:45-48 | updates the server as `Events.ShowWhiteboard` |
| Handlers.OnWbChange | Code/EventHandlers/WhiteboardEventHandler.js:51-58 | updates the server as `Events.WbChange` |
| Handlers.OnCheckState | Code/EventHandlers/WhiteboardEventHandler.js:61-73 | updates the server as `Events.CheckState` |
| Handlers.OnTextWhiteboard | Code/EventHandlers/WhiteboardEventHandler.js:76-81 | updates the server as `Events.TextWhiteboard` |
| Handlers.OnShapeWhiteboard | Code/EventHandlers/WhiteboardEventHandler.js:84-89 | updates the server as `Events.ShapeWhiteboard` |
| Handlers.OnCreateLobbyEvent | Code/EventHandlers/LobbyEventHandler.js:6-29 | updates the server and returns the pending create as `Events.CreateLobbyEvent` |
| Handlers.OnJoinLobbyEvent | Code/EventHandlers/LobbyEventHandler.js:32-38 | reports `crashed` exactly when `Events.JoinLobbyEvent` throws, leaving the server unchanged, and otherwise updates the server as it does |
| Handlers.SendError | Code/EventHandlers/LobbyEventHandler.js:36 | appends `errorPesan` to the caller and changes nothing else |
| Handlers.CollectPlayers | Code/EventHandlers/LobbyEventHandler.js:61-69 | the `forEach`/`push` loop returns the listing of the members |
| Handlers.OnPlayerList | Code/EventHandlers/LobbyEventHandler.js:58-73 | reports `crashed` exactly when `Events.ListPlayers` throws (a connection in no room), leaving the server unchanged, and otherwise updates the server as it does |
| Handlers.OnSubmitSoalEvent | Code/EventHandlers/QuizEventHandler.js:4-10 | updates the server and returns the store request as `Events.SubmitSoalEvent` |
| Handlers.OnSubmitJawabanEvent | Code/EventHandlers/QuizEventHandler.js:13-15 | forwards with no quiz gate: returns `Steps.SubmitJawaban`, nothing for a connection in no room |
| Quiz.OptionAt | Code/Services/QuizService.js:60 | `selectedOption` is `options[sel-1]` exactly when options exist and 1 ≤ sel ≤ their number, and null otherwise |
| Quiz.Grade | Code/Services/QuizService.js:45-80 | (definition) the grading callback of `submitAnswer` for one answer; its cases are `Quiz.PilganGrading`, `Quiz.EssayGrading` and `Quiz.UnknownGrading` |
| Quiz.EssayVerdictTruthy | Code/Services/QuizService.js:64 | the essay verdict is truthy iff the essay is truthy and is not 'Siswa Tidak Menjawab' |
| Quiz.Enhanced | Code/Services/QuizService.js:45-80 | one graded answer per submitted answer, each the grading of its own position |
| Quiz.Score | Code/Services/QuizService.js:82 | (definition) `Math.round(correct / total · 100)`, NaN without questions; bounds in `Quiz.ScoreIsPercentage` and `Quiz.ScoreExtremes` |
| Quiz.SubmitAnswerSpec | Code/Services/QuizService.js:30-102 | (definition) the stored row: 'Quiz not found' without questions, a TypeError when `jawaban` is not an array, otherwise the graded answers and score; `Quiz.SubmitAnswer` computes it |
| Quiz.SubmitAnswer | Code/Services/QuizService.js:30-102 | the loop with its `correctCount` counter stores the row of `SubmitAnswerSpec`: 'Quiz not found' without questions, otherwise graded answers and score |
| Quiz.PilganGrading | Code/Services/QuizService.js:50-61 | a pilgan answer counts iff `correctAnswer === selectedAnswer`, carrying the type, correct answer and selected option |
| Quiz.EssayGrading | Code/Services/QuizService.js:62-71 | an essay answer counts iff the essay is truthy and not 'Siswa Tidak Menjawab', and only `isCorrect`/`questionType` are added |
| Quiz.UnknownGrading | Code/Services/QuizService.js:75-79 | no question, or a type/field mismatch, gives isCorrect false and type 'unknown' and does not count |
| Quiz.CountBounded | Code/Services/QuizService.js:45-82 | the correct count is at most the number of answers and of questions |
| Quiz.ScoreIsPercentage | Code/Services/QuizService.js:82 | the score exists iff there are questions, and then lies in 0..100 |
| Quiz.ScoreExtremes | Code/Services/QuizService.js:82 | all correct scores 100, none correct scores 0 |
| Quiz.CalculateScore | Code/Services/QuizService.js:104-127 | 0 for a missing quiz, otherwise the rounded percentage of positions where `correctAnswer === selectedAnswer`, whatever the type |
| Quiz.CalculateScoreCountsUnansweredEssay | Code/Services/QuizService.js:116-118 | an unanswered essay scores 100 in `calculateScore` and 0 in `submitAnswer` (Findings) |
| Quiz.CalculateScoreCorrected | Code/Services/QuizService.js:104-127 | the corrected score counts like `submitAnswer` and equals the score it stores |
| Quiz.BackFill | Code/Services/QuizService.js:198-221 | one answer per stored answer, each recomputed in its position |
| Quiz.BackFillKeepsStored | Code/Services/QuizService.js:200-202 | answers that already have `isCorrect` come back unchanged, and afterwards every answer has it |
| Quiz.BackFillIdempotent | Code/Services/QuizService.js:198-221 | back-filling twice equals back-filling once |
| Quiz.BackFillAgreesWithGrade | Code/Services/QuizService.js:204-220 | the recomputed `isCorrect` equals `submitAnswer`'s; the type is the question's type, or 'unknown' without a question |
| Quiz.GetAllAnswers | Code/Services/QuizService.js:180-232 | each answer row is back-filled against the questions of its own quiz |
| Quiz.GetAnswersByQuiz | Code/Services/QuizService.js:234-283 | each row is back-filled against the one quiz's questions, or none |
| Quiz.ReportsAgree | Code/Services/QuizService.js:243-249 | for a quiz with a unique id, `getAnswersByQuiz` back-fills its answers as `getAllAnswers` does (`QuizService.js:193-195`) |
| Quiz.LastRowWins | Code/Services/QuizService.js:189-191 | `quizMap` holds the questions of the row with that id |
| Quiz.SubmitQuiz | Code/Services/QuizService.js:5-28 | title defaults to 'Quiz' when falsy, questions to [], status is 'active', the other columns are copied |
| Submit.CheckSoal | Code/Server.js:284-308 | pilgan passes iff soal, the four options and timer are truthy and opsi is defined; essay iff soal and timer are truthy; any other type is rejected; each rejection has its message |
| Submit.QuestionOf | Code/Server.js:311-325 | the question copies soal, type and timer; pilgan adds options [a, b, c, d] and correctAnswer = opsi; otherwise neither |
| Submit.Prefix50 | Code/Server.js:330 | `substring(0, 50)` is the prefix of length min(50, length) |
| Submit.TitleShape | Code/Server.js:330 | the title is 'Quiz - ', the first 50 characters of soal, and '...' |
| Submit.BuildQuiz | Code/Server.js:328-332 | (definition) the quiz posted for an accepted form; proved about it in `Submit.TitleShape` and `Submit.AcceptedQuizIsStored` |
| Submit.AcceptedQuizIsStored | Code/Server.js:328-332 | an accepted form is stored (`QuizService.js:9-21`) with that title, its one question, its teacher and lobby, status 'active' |
| Submit.NormaliseCases | Code/Server.js:377-393 | kodeSoal takes id when id is truthy and kodeSoal falsy; jawaban is kept when truthy, else `[{selectedAnswer: indexJawaban}]` when defined, else `[{essayAnswer: 'Siswa Tidak Menjawab'}]` when defined but falsy, else `[{selectedAnswer: null}]` |
| Submit.NormaliseJawaban | Code/Server.js:377-393 | (definition) the answer body; proved about it in `Submit.NormaliseCases`, `NormalisedCodeTruthy` and `AsUserAnswers` |
| Submit.NormalisedCodeTruthy | Code/Server.js:377-379 | when id or kodeSoal is truthy, the request carries a truthy kodeSoal |
| Submit.AsUserAnswers | Code/Server.js:381-393 | the built answer list has one answer per item |
| Submit.UnansweredScoresNothing | Code/Server.js:388-391 | a normalised empty answer can only count when the question is pilgan with `correctAnswer` null (`QuizService.js:50-52`) |
| Http.UpperAscii | Code/HttpClient.js:63 | `toUpperCase` on the method name maps a–z to A–Z and keeps other characters |
| Http.CacheKey | Code/HttpClient.js:62-64 | (definition) `METHOD:url:JSON.stringify(data || {})`; proved about it in `Http.FalsyBodyIsEmptyObject`, `GetKeysInjective` and `GetAndPostKeysDiffer` |
| Http.Lookup | Code/HttpClient.js:73-80 | (definition) `getCache`; proved about it in `Http.SetThenGet` and `Http.LookupOtherKeys` |
| Http.RequestStep | Code/HttpClient.js:83-119 | (definition) the cached request; proved about it in `Http.FreshHitSkipsNetwork`, `MissRefreshes`, `FalsyHitRefetches`, `UncachedLeavesCache` and `RequestOtherKeys` |
| Http.FalsyBodyIsEmptyObject | Code/HttpClient.js:62-64 | a falsy body gives the same key as no body and as `{}` |
| Http.GetKeysInjective | Code/HttpClient.js:62-64 | two GET urls share a key only when equal |
| Http.GetAndPostKeysDiffer | Code/HttpClient.js:62-64 | a GET key never equals a POST key |
| Http.HttpClient.constructor | Code/HttpClient.js:55-56 | a new client has an empty cache |
| Http.HttpClient.SetCache | Code/HttpClient.js:66-71 | overwrites the entry with the data and the current time |
| Http.HttpClient.GetCache | Code/HttpClient.js:73-80 | returns and updates the cache as `Http.Lookup` |
| Http.HttpClient.Request | Code/HttpClient.js:83-119 | the cache path of `post`/`get` as `Http.RequestStep`, with the network reply as input |
| Http.HttpClient.Post | Code/HttpClient.js:83-100 | a request on the POST key of url and data |
| Http.HttpClient.Get | Code/HttpClient.js:102-119 | a request on the GET key of url |
| Http.HttpClient.ClearCache | Code/HttpClient.js:122-124 | empties the cache |
| Http.HttpClient.GetCacheStats | Code/HttpClient.js:127-132 | size is the number of entries and keys are the cache's keys |
| Http.SetThenGet | Code/HttpClient.js:66-80 | reading a key just set returns its data before the 5-minute timeout and otherwise deletes it and returns null |
| Http.LookupOtherKeys | Code/HttpClient.js:78 | a lookup deletes at most its own key |
| Http.FreshHitSkipsNetwork | Code/HttpClient.js:86-91 | with caching on, a fresh truthy entry is returned with no network call and no change, for `post` and likewise `get` (`HttpClient.js:105-110`) |
| Http.MissRefreshes | Code/HttpClient.js:88-97 | otherwise the network is called; an answer is returned and cached with the completion time; an error is rethrown |
| Http.FalsyHitRefetches | Code/HttpClient.js:88 | a fresh but falsy entry is a miss and the network is called |
| Http.UncachedLeavesCache | Code/HttpClient.js:93-99 | with caching off the network is called and the cache is untouched |
| Http.RequestOtherKeys | Code/HttpClient.js:83-119 | a request touches only its own key |
| Throttle.EventThrottler.constructor | Code/EventThrottler.js:2-4 | a new throttler has no entries and no timers |
| Throttle.ThrottleStep | Code/EventThrottler.js:7-27 | (definition) `throttle`; proved about it in `Throttle.LeadingEdge`, `InsideWindow`, `ImmediateRunsAreSpaced` and `ThrottleKeepsWellFormed` |
| Throttle.FireStep | Code/EventThrottler.js:21-24 | (definition) a pending timer going off; proved about it in `Throttle.FireKeepsWellFormed` |
| Throttle.CleanupStep | Code/EventThrottler.js:30-40 | (definition) `cleanup(prefix)`; proved about it in `Throttle.CleanupExactly` |
| Throttle.EventThrottler.Throttle | Code/EventThrottler.js:7-27 | keeps the throttler well formed and updates it as `Throttle.ThrottleStep` |
| Throttle.EventThrottler.Fire | Code/EventThrottler.js:21-24 | a due timer is removed, `lastCall` becomes the fire time, and its action is returned to run |
| Throttle.EventThrottler.Cleanup | Code/EventThrottler.js:30-40 | the deleting loop updates the throttler as `Throttle.CleanupStep` |
| Throttle.EventThrottler.GetStats | Code/EventThrottler.js:43-47 | `activeThrottles` is the number of keys and `keys` the key set |
| Throttle.LeadingEdge | Code/EventThrottler.js:11-14 | an unseen key or one past the window runs now, its entry becomes `{lastCall: now}`, and pending timers are not cleared |
| Throttle.InsideWindow | Code/EventThrottler.js:16-26 | inside the window the call is deferred: the old pending timer is cancelled, one timer is due at `lastCall + limit` with delay in (0, limit], `lastCall` is kept, other keys are untouched |
| Throttle.ImmediateRunsAreSpaced | Code/EventThrottler.js:11 | an immediate run of a known key is at least `limit` after its `lastCall` |
| Throttle.ThrottleKeepsWellFormed | Code/EventThrottler.js:17-21 | a throttle call keeps the throttler well formed: an entry's pending timer is live and belongs to that entry's key, and every timer handle is below the next handle |
| Throttle.FireKeepsWellFormed | Code/EventThrottler.js:21-24 | firing keeps that shape |
| Throttle.RemoveKeysKeepsWellFormed | Code/EventThrottler.js:34-37 | deleting keys together with their timers keeps that shape |
| Throttle.RemoveKeysExactly | Code/EventThrottler.js:33-37 | exactly the given keys go, their pending timers are cleared, and other keys and timers stay |
| Throttle.CleanupExactly | Code/EventThrottler.js:30-40 | `cleanup(prefix)` deletes exactly the keys starting with the prefix, clears their pending timers, and keeps the rest |
| Throttle.ImmediateRunsSpacedAlongTrace | Code/EventThrottler.js:11-24 | along any sequence of calls and fires for one key, its immediate runs are at least `limit` apart |
| Memory.CheckConnectionLimitMeans | Code/MemoryManager.js:182-188 | `checkConnectionLimit` is false iff the room has at least `maxConnections` members |
| Memory.CheckConnectionLimit | Code/MemoryManager.js:182-188 | (definition) `checkConnectionLimit`; proved about it in `Memory.CheckConnectionLimitMeans` and `CapacityImpliesLimit` |
| Memory.CapacityImpliesLimit | Code/Lobbies/GameLobby.js:19-32 | a room admitted by `canEnterLobby` with maxPlayers ≤ 50 also passes the 50-member limit |
| Memory.SweepIsInvisibleToGetCache | Code/MemoryManager.js:60-68 | the 5-minute sweep never changes what `getCache` returns (`HttpClient.js:73-80`) |
| Memory.SweepKeepsRecent | Code/MemoryManager.js:60-68 | an entry survives the sweep iff its timestamp is at least now − 300000 |
| Memory.MemoryManager.constructor | Code/MemoryManager.js:2-9 | all three counters start at 0 |
| Memory.MemoryManager.CleanupHttpCache | Code/MemoryManager.js:55-72 | deletes exactly the entries older than 5 minutes and adds their number to `cacheEntriesCleanedUp` |
| Memory.MemoryManager.CleanupEventThrottler | Code/MemoryManager.js:75-94 | deletes exactly the throttles with `lastCall` older than 5 minutes together with their pending timers |
| Memory.MemoryManager.CleanupPlayer | Code/MemoryManager.js:108-125 | nulls the player's position and lobby and clears the connection, and counts one clean-up on every call |
| Memory.MemoryManager.CleanupLobby | Code/MemoryManager.js:128-144 | a null lobby is a no-op; otherwise the room is cleared and `lobbiesCleanedUp` grows by one |
| Memory.ClearedRoom | Code/MemoryManager.js:132-141 | a cleared room has no members, '' whiteboard, text and shape data, and its other settings unchanged |
| Memory.ClearedRoomIdempotent | Code/MemoryManager.js:128-144 | clearing twice equals clearing once |
| Breaker.Fresh | Code/ErrorHandler.js:157-160 | a new breaker is CLOSED with 0 failures and no failure time |
| Breaker.SuccessStep | Code/ErrorHandler.js:181-184 | (definition) `onSuccess`; proved about it in `Breaker.SuccessCloses` |
| Breaker.FailureStep | Code/ErrorHandler.js:186-197 | (definition) `onFailure`; proved about it in `Breaker.FailureCounts` and `HalfOpenFailureReopens` |
| Breaker.ExecuteStep | Code/ErrorHandler.js:162-179 | (definition) `execute` with the call outcome as input; proved about it in `Breaker.ExecutePreserves`, `OpenRefuses`, `OpenAfterTimeoutCalls` and `FailuresAreTrailingThrows` |
| Breaker.CircuitBreaker.constructor | Code/ErrorHandler.js:156-160 | the object holds the fresh state and its two limits |
| Breaker.CircuitBreaker.OnSuccess | Code/ErrorHandler.js:181-184 | updates the state as `Breaker.SuccessStep` |
| Breaker.CircuitBreaker.OnFailure | Code/ErrorHandler.js:186-197 | updates the state as `Breaker.FailureStep` |
| Breaker.CircuitBreaker.Execute | Code/ErrorHandler.js:162-179 | keeps the breaker consistent and updates it and the outcome as `Breaker.ExecuteStep` |
| Breaker.ExecutePreserves | Code/ErrorHandler.js:162-197 | `execute` keeps the breaker consistent (OPEN ⇒ some failure recorded) |
| Breaker.OpenRefuses | Code/ErrorHandler.js:163-168 | OPEN within the timeout throws without calling the function and changes nothing |
| Breaker.OpenAfterTimeoutCalls | Code/ErrorHandler.js:164-172 | OPEN past the timeout calls the function: success closes, failure counts one more |
| Breaker.SuccessCloses | Code/ErrorHandler.js:181-184 | a success returns the value and resets to CLOSED with 0 failures |
| Breaker.FailureCounts | Code/ErrorHandler.js:186-196 | a failure rethrows, counts, records the time, and opens iff failures reach `maxFailures` |
| Breaker.HalfOpenFailureReopens | Code/ErrorHandler.js:186-191 | a failure in HALF_OPEN (entered at `ErrorHandler.js:164-165`) reopens at once, because failures were not reset |
| Breaker.FailuresAreTrailingThrows | Code/ErrorHandler.js:171-188 | over a run of calls, `failures` is the number of throws since the last success |
| Breaker.FreshFailuresAreTrailingThrows | Code/ErrorHandler.js:157-197 | from a new breaker, `failures` counts the throws since the last success |
| Export.Filter | Code/Services/ExcelExportService.js:49 | `filter` keeps at most the elements it is given |
| Export.FilterMembers | Code/Services/ExcelExportService.js:157-167 | an element is kept iff it is in the input and passes the test (also `ExcelExportService.js:49`) |
| Export.TotalBounds | Code/Services/ExcelExportService.js:51 | the sum of scores in [lo, hi] lies between lo and hi times their number |
| Export.AnswersOfMembers | Code/Services/ExcelExportService.js:49 | a quiz's answers are exactly those with its `quizId` |
| Export.QuizSummary | Code/Services/ExcelExportService.js:47-67 | one summary row per quiz |
| Export.SummaryScoresInRange | Code/Services/ExcelExportService.js:47-67 | each row has the quiz id, question count and submission count of that quiz's answers; the average is 0 without answers and otherwise within the scores' range |
| Export.FindQuiz | Code/Services/ExcelExportService.js:73 | `find` returns the first quiz with that id, or none when no quiz has it |
| Export.RowsOf | Code/Services/ExcelExportService.js:76-112 | one detail row per answered question, stopping at the end of the quiz's questions |
| Export.DetailedResults | Code/Services/ExcelExportService.js:69-116 | (definition) the detail rows of all answers; `Export.CreateDetailedResultsSheet` computes them and `DetailRowsDescribeTheirQuestion` describes them |
| Export.AnswerRows | Code/Services/ExcelExportService.js:76-112 | the `forEach`/`push` loop returns those rows |
| Export.CreateDetailedResultsSheet | Code/Services/ExcelExportService.js:69-116 | the loop returns the detail rows of all answers |
| Export.DetailRowsDescribeTheirQuestion | Code/Services/ExcelExportService.js:73-108 | every detail row belongs to a quiz found by id, numbers its question from 1 within range, and carries that question's text, correct-answer text and the quiz title |
| Export.DetailRowsPerAnswer | Code/Services/ExcelExportService.js:73-78 | an answer without a quiz adds no rows, one with a quiz adds min(answers, questions) rows |
| Export.GradeMarksYes | Code/Services/ExcelExportService.js:108 | Is Correct is 'Yes' iff the grading counted the answer |
| Export.GradedCellsAgree | Code/Services/ExcelExportService.js:81-108 | for a graded answer, 'Yes' iff it counted, and a correct pilgan answer shows the correct answer's text |
| Export.StoredAnswerYesCount | Code/Services/ExcelExportService.js:108 | for a stored answer, the number of 'Yes' cells equals the number of correct answers counted when it was graded (`QuizService.js:45-82`) |
| Export.RowsYes | Code/Services/ExcelExportService.js:76-108 | the first m detail rows of an answer show 'Yes' as often as the first m stored answers are marked correct |
| Export.GradedYes | Code/Services/QuizService.js:45-82 | the number of answers graded correct among the first n equals `submitAnswer`'s count over them |
| Export.AnswersByMembers | Code/Services/ExcelExportService.js:122-136 | a student's answers are exactly those under that name |
| Export.StudentKeysExactly | Code/Services/ExcelExportService.js:122-136 | the student keys are the names with answers, without repeats |
| Export.MaxOf | Code/Services/ExcelExportService.js:143 | `Math.max` is an element no smaller than any other |
| Export.MinOf | Code/Services/ExcelExportService.js:144 | `Math.min` is an element no larger than any other |
| Export.RowsForAt | Code/Services/ExcelExportService.js:139-146 | the i-th statistics row is the row of the i-th student key |
| Export.SortByAverageSorted | Code/Services/ExcelExportService.js:149 | the rows are sorted by average, descending |
| Export.SortByAveragePerm | Code/Services/ExcelExportService.js:149 | sorting keeps exactly the same rows |
| Export.TallyOther | Code/Services/ExcelExportService.js:122-136 | an answer changes no other student's tally |
| Export.TallyNew | Code/Services/ExcelExportService.js:124-135 | a new student's tally starts from zero and counts the answer |
| Export.TallyAgain | Code/Services/ExcelExportService.js:133-135 | a known student's tally counts one more quiz, adds the score and appends it |
| Export.CreateStudentPerformanceSheet | Code/Services/ExcelExportService.js:118-152 | the method returns the performance rows as written, failing on `Object.prototype` names (Findings) |
| Export.PerformanceAsWritten | Code/Services/ExcelExportService.js:118-152 | (definition) the performance sheet as written, failing on `Object.prototype` names; proved about it in `Export.ConstructorBreaksPerformance` and `ExportFailsOnlyOnPrototypeNames` |
| Export.TallyStudents | Code/Services/ExcelExportService.js:122-136 | the `forEach` fails iff some student bears an `Object.prototype` name, and otherwise yields one entry per student, in first-seen order, holding that student's tally |
| Export.CountAnswer | Code/Services/ExcelExportService.js:123-135 | one turn of the loop, as the tally step |
| Export.StatsRows | Code/Services/ExcelExportService.js:139-146 | the `map` returns one row per student in `Object.values` order |
| Export.StatsConsistent | Code/Services/ExcelExportService.js:139-146 | each tally has at least one quiz, one score per quiz, and an average between its worst and best scores |
| Export.PerformanceRowsOfEveryStudent | Code/Services/ExcelExportService.js:118-152 | the rows are sorted by average descending, are a permutation of the per-student rows, have worst ≤ average ≤ best, and every student has a row counting all their answers |
| Export.ConstructorBreaksPerformance | Code/Services/ExcelExportService.js:124-135 | a student named 'constructor' makes the sheet fail as written, while the corrected rows hold one row for that student (Findings) |
| Export.ExportFailsOnlyOnPrototypeNames | Code/Services/ExcelExportService.js:17-30 | the export fails iff a student bears an `Object.prototype` name, and otherwise holds the corrected performance rows |
| Export.ExportQuizResults | Code/Services/ExcelExportService.js:17-30 | (definition) the three sheets of an export; proved about it in `Export.ExportFailsOnlyOnPrototypeNames` |
| Export.TrimStart | Code/Services/ExcelExportService.js:156 | `parseInt` skips a suffix of leading white space, stopping at a non-space |
| Export.ParseInt | Code/Services/ExcelExportService.js:156 | (definition) `parseInt`; proved about it in `Export.ReadsDigits`, `ReadsNegativeDigits` and `ParseIntReadsDecimal` |
| Export.ReadsDigits | Code/Services/ExcelExportService.js:156 | `parseInt` of a digit string is its decimal value |
| Export.ReadsNegativeDigits | Code/Services/ExcelExportService.js:156 | `parseInt` of '-' and digits is the negated value |
| Export.ParseIntReadsDecimal | Code/Services/ExcelExportService.js:156 | `parseInt` of an integer or of its decimal text gives the integer back |
| Export.DecimalTextDigits | Code/Services/ExcelExportService.js:156 | the decimal text of n is non-empty digits whose value is n, with no leading zero |
| Export.TeacherExportKeepsSubmissions | Code/Services/ExcelExportService.js:154-163 | the teacher's export keeps exactly the quizzes whose `teacherId` equals `parseInt(arg)`, and each keeps all its answers |
| Export.ExportQuizByTeacher | Code/Services/ExcelExportService.js:154-163 | (definition) the teacher filter; proved about it in `Export.TeacherExportKeepsSubmissions` |
| Export.LobbyExportCountsLobbyAnswers | Code/Services/ExcelExportService.js:165-170 | the lobby export keeps the lobby's quizzes, and counts for each only answers whose own `lobbyId` is the lobby |
| Export.ExportQuizByLobby | Code/Services/ExcelExportService.js:165-170 | (definition) the lobby filter; proved about it in `Export.LobbyExportCountsLobbyAnswers` |

## Left out

- Sockets and transport: `emit`, `broadcast.to` and `socket.join` are entries of the output log. The wiring in `Code/Connection.js`, `index.js`, and the try/catch around emits are not part of this model.
- Object aliasing: rooms, connections and players are values, and a connection holds its room's id. Rooms that share one object are therefore not modelled.
- Randomness: nanoid ids and `Math.random` draws are parameters. A new room id must be fresh, and a player id must not already be filed. The shuffle helper is unused by the program and is not modelled.
- Clocks and timers: `Date.now()` is a `now` parameter. The throttler's `setTimeout` is an explicit timer record plus a fire step. The 2000 ms delay of `onCreateLobby` splits it into `OnCreateLobby` and `CreateLobbyTimeout`. The periodic `setInterval` sweep is not modelled; its two sweeps are.
- Async interleaving: each handler is atomic. The HTTP login, quiz store and answer store outcomes are inputs (`Login`, `Http.Reply`). The database rows are inputs of the quiz and export functions.
- Js.RoundDiv: floating point is not modelled. Scores and averages are exact rationals rounded half up (`Js.RoundDiv`). A zero-question score is "not a number" (`None`). Positions are opaque values. Where the program's double arithmetic lands just below a half, the two differ: for 23 correct answers out of 40, `(23 / 40) * 100` is 57.49999999999999 in doubles and `Math.round` gives 57, while `Js.RoundDiv` gives 58.
- A null stored score counts as 0 in sums, maxima and minima (`Export.Points`).
- `parseInt` (`Export.ParseInt`) skips leading white space, reads an optional sign and an optional `0x` prefix, then the longest run of decimal or hexadecimal digits. The loss of precision above 2^53 and the distinction between `-0` and `0` are not modelled.
- Dates, XLSX sheet and file writing, `exportQuizByDateRange`, the logger, the console output, `HealthMonitor`, the admin web application, the book events and services, authentication and the database layer are not part of this model.
- InClassRoom: the general room has no settings, and a connection refused by a full room (`Registry.GameEnter`, reachable because the reuse branch of `onCreateLobby` skips `canEnterLobby`) points to no room at all. The events that read `connection.lobby.settings` (the whiteboard events, the breakout steps, `submitSoal`) would throw for either in the program; they carry `InClassRoom` preconditions instead of a crash outcome. The events that only need a room (`updateKursi`, `raiseHand`, `globalMute`, `playerList`, `submitJawaban`) model the missing room.
- Steps.JoinLobby, Registry.Switch, Registry.SwitchLeave, Steps.Disconnect: their own contracts state only the frame (which keys remain). What they do to members, pointers and the log is stated by the lemmas named in their rows.
- Js.LooseEqOne: `Js.ToNumber` converts a string only when it is empty or an optionally negated run of decimal digits, and an object never converts. JavaScript's `Number` also reads " 1", "+1", "1.0", "0x1" and the array [1] as 1, so for those values `type == 1` holds in the program but not in the model.
- Quiz.OptionAt: the same conversion applies to the 1-based choice, so a choice such as " 2" or "2.0" selects an option in the program and none in the model.
- Handlers.FireTimer: requires `Runnable`, so that the stored callback's player is still connected (and for a drawing, still in a class room). Orphaned timers are excluded. In the program, a leading-edge call replaces an entry without clearing its pending timer (`EventThrottler.js:11-14`), and `cleanup` clears only the timer the entry still holds (`EventThrottler.js:34-36`). Such a timer can fire after its player has disconnected. It re-creates the deleted key, and then the position callback sends `errorPesan` (its TypeError is caught, `PlayerEventHandler.js:15-20`) while the drawing callback throws in `onDrawWhiteboard`. The throttler bookkeeping of that case is modelled (`Throttle.FireStep`); the callback's effect on a registry without the player is not.
- Handlers.RunAction: requires `Runnable` for the same reason.
- Registry.Switch: requires the room the player names to exist, as do `Registry.SwitchLeave` and `GameServer.Server.OnSwitchLobby`. A detached player whose room was deleted makes `onSwitchLobby` throw at `Code/Server.js:144`. The two callers model that crash before calling it: `Steps.JoinLobby` (`Invariants.JoinLobbyCrashes`) and `Steps.CompleteCreateLobby` (`Invariants.CompleteCrashes`).
- GameServer.Server.OnSwitchLobby: requires the room the player names to exist, as `Registry.Switch` does.
- Steps.CompleteCreateLobby: requires that a found room is not 'General Server', and that a new room's id is not already taken. The first holds for every verdict of the scan (`Invariants.DecideAvoidsGeneral`); the second is what a fresh random id means.
- Crashes: a step that throws ends in `Crash`. The program logs the error and exits one second later (`Code/ErrorHandler.js:11-21`). Events handled during that second, and the partial writes a step made before throwing, are not modelled.
- Http.HttpClient.GetCacheStats: returns the cache keys as a set. `Object.keys` returns them in insertion order, which the model does not keep.
- Throttle.EventThrottler.GetStats: returns the throttle keys as a set, not in insertion order, for the same reason.
- The correct-answer and student-answer cell texts (`Export.CorrectText`, `Export.StudentText`) are definitions used by the detail rows. They are described through `Export.DetailRowsDescribeTheirQuestion` and `Export.GradedCellsAgree` and have no lemma of their own.

## Findings

| source | as written | input that shows it | evidently intended | confidence | as-written member | corrected member |
|---|---|---|---|---|---|---|
| Code/Services/QuizService.js:116-118 | `calculateScore` counts a position when `correctAnswer === selectedAnswer`, so an essay (no `correctAnswer`) with no `selectedAnswer` matches `undefined === undefined` | one essay question and the answer `{essayAnswer: 'Siswa Tidak Menjawab'}` score 100 | count like `submitAnswer`, which scores the same answer 0 | not executed | Quiz.CalculateScore, Quiz.CalculateScoreCountsUnansweredEssay | Quiz.CalculateScoreCorrected |
| Code/Services/ExcelExportService.js:124-135 | `studentStats[studentName]` reads `Object.prototype` for names such as 'constructor', so the new-student branch is skipped and `.scores.push` throws | one answer by a student named 'constructor' with score 80 | one performance row for that student (1 quiz, average, best and worst 80) | not executed | Export.CreateStudentPerformanceSheet, Export.ConstructorBreaksPerformance | Export.PerformanceRowsOfEveryStudent |
| Code/Server.js:122-123 | `server.lobbys[data.idLobby]` is truthy for 'General Server', a `LobbyBase` without `canEnterLobby`. Because `lobbys` is an array, it is also truthy for inherited names such as 'map', and for 'length' once a room id of digits has been stored. Calling `canEnterLobby` on any of them throws, and the process exits | a 'joinLobby' with name 'a', type 2 and idLobby 'General Server' (or 'map', or 'length' after a class room '123456' was created) | look up only class rooms, and answer any other key with `errorPesan` as for an unknown room | not executed | Steps.JoinLobby, Invariants.JoinGeneralRoomCrashes, Invariants.IndexRoomArmsLength | Steps.JoinLobbyChecked, Invariants.JoinLobbyCheckedSafe |
| Code/Server.js:107-115 | the 2000 ms timer switches the connection object it captured. A teacher who disconnects meanwhile has had its socket nulled (`MemoryManager.js:108-125`), so `socket.join` throws. A found room deleted meanwhile makes `onEnterLobby` throw (`Server.js:145`) | a teacher sends 'createLobby', logs in, and disconnects within 2000 ms | a timer that does nothing for a teacher who has left, and creates a class room when the found one is gone | not executed | Steps.CompleteCreateLobby, Invariants.TeacherLeavingCrashes | Steps.CompleteCreateLobbyChecked, Invariants.CompleteCheckedSafe |
