# Match coordination of a Photon crown-tag game, modelled in Dafny

The game is a small Unity multiplayer match built on Photon. One peer, the
master client, holds authority over shared match state and writes it into the
room's custom properties: the crown owner, the match start time and duration,
and at the end the winner with a score snapshot. Every peer reads those values
back. The peers also stun each other. A stun on the crown holder makes the
attacker ask the master for the crown. The lobby toggles a ready flag and lets
only the master start. The chat keeps a bounded history.

This Dafny project models that core, one module per source file:

| module | source file | form |
|---|---|---|
| `Match`, `Spawn` | `Assets/Scripts/GameManager.cs` | class `GameManager`, pure spawn selection and crown functions |
| `Timer` | `Assets/Scripts/Timer/GameTimer.cs` | class `GameTimer` |
| `TimerText` | `Assets/Scripts/Timer/TimerTextPresenter.cs` | pure formatting, class `TimerTextPresenter` |
| `Stun` | `Assets/Player/StunHandler.cs` | class `StunHandler` |
| `Player` | `Assets/Player/PlayerControllerNewInput.cs` | class `PlayerController`, class `PhotonStream` |
| `Chat` | `Assets/Scripts/ChatManager.cs` | class `ChatManager` |
| `Lobby` | `Assets/Scripts/LobbyManager.cs` | class `LobbyManager` |

Shared modules: `Wrappers` (an `Option` type), `Photon` (property values, the
`PropertyBag` class for room and player properties, keys, recorded network
calls) and `Text` (.NET white space, `string.Join`, decimal and two-digit
formatting).

The replicated store is a `PropertyBag`: a `map<string, Value>` plus a log of
every `SetCustomProperties` call. A write is merged into the local view at
once. The casts the C# readers apply to property values (`(int)`, `(double)`,
`(string[])`, `(bool)`) become the predicate `Photon.Typed`: each known key
holds a value of the cast type. Readers require it, and every write is proved
to keep it. Engine facts come in as parameters: `isMaster`
(`PhotonNetwork.IsMasterClient`), the roster (`PhotonNetwork.PlayerList` as
actor numbers), the clock reading `now`, ray-cast hits, and the
outcome of `ScoreManager.TryDetermineWinner`. A master always has a current
room; the master-only writes take that as a precondition.

Three members are renamed because the source name is taken by something
else in the same module. The `RequestCrownTransfer` RPC handler is
`Stun.StunHandler.CommitCrownTransfer`, since `Stun.RequestCrownTransfer` is
the call the attacker sends. `RPC_OnStunned`, with the first part of
`StunCoroutine`, is `Player.PlayerController.OnStunned`. The part of
`StunCoroutine` after its two-second wait is
`Player.PlayerController.OnStunEnded`.

Where the code and its intended behaviour differ, the model follows the code:

- Crown transfer: the intended rule is that when several transfer requests
  arrive in the same tick, the first one processed is committed and the rest
  are dropped. The code overwrites `CrownOwner` on every request, so the last
  one processed wins (`Stun.CommitAllLastWins`).
- Key names follow the code: `CrownOwner`, `MatchWinner`,
  `MatchScoresActorNumbers`, `MatchScoresValues`, `matchStartTime`,
  `matchDuration`, `chatHistory`, `isReady`.
- Authority is whatever Photon reports as master, passed in as `isMaster`.
  The code has no lowest-identity election of its own. It also never reassigns
  the crown when its holder leaves.

## Model

| member | source | states |
|---|---|---|
| `Match.LowestActor` | Assets/Scripts/GameManager.cs:171 | the first actor of the roster ordered by actor number is in the roster and no other actor is lower |
| `Match.CrownInitWrites` | Assets/Scripts/GameManager.cs:165-177 | the crown write touches only `CrownOwner`; it happens exactly when no owner is recorded and the roster is non-empty; it writes the lowest actor |
| `Match.GetCrownOwnerActorNumber` | Assets/Scripts/GameManager.cs:244-249 | -1 without a room or without the key, otherwise the stored integer |
| `Match.CrownInitThenRead` | Assets/Scripts/GameManager.cs:160-180 | after the initial write the room stays well typed and reading the owner gives the lowest actor of the roster |
| `Match.CrownInitIdempotent` | Assets/Scripts/GameManager.cs:165 | once an owner is recorded, a later initialisation writes nothing, whatever roster it sees |
| `Match.CrownInitDeterministic` | Assets/Scripts/GameManager.cs:170-171 | two masters that see the same players in any order write the same owner |
| `Match.GameManager.EnsureCrownOwnerExists` | Assets/Scripts/GameManager.cs:160-180 | no room: nothing; otherwise the room becomes old props plus `CrownInitWrites`, with one write logged only when that is non-empty |
| `Match.PackSnapshot` | Assets/Scripts/GameManager.cs:206-219 | the two arrays have the snapshot's length and hold its entries pair by pair in enumeration order; distinct actors stay distinct |
| `Match.UnpackAt` | Assets/Scripts/GameManager.cs:211-216 | reading distinct parallel arrays back gives each index's actor its score, and no other actor |
| `Match.UnpackPacked` | Assets/Scripts/GameManager.cs:206-219 | reading the published arrays back gives every snapshot entry its score and no extra actor |
| `Match.ResultWritesPublish` | Assets/Scripts/GameManager.cs:199-222 | merging the result write adds exactly `MatchWinner` (and both arrays when the snapshot is non-empty), keeps all other keys, and keeps the room well typed |
| `Match.GameManager.OnMatchTimeEnded` | Assets/Scripts/GameManager.cs:183-231 | non-master: no write and no scene load; master: loads the result scene; the result is published in one write only with a score manager and a winner |
| `Match.GameManager.TrySpawnLocalPlayer` | Assets/Scripts/GameManager.cs:95-131 | already spawned or no local player: nothing; an instance in the tag object is reused without instantiating; otherwise one instantiation at the selected point, or nothing if none is found; at most one instance ever |
| `Match.GameManager.Start` | Assets/Scripts/GameManager.cs:41-57 | a missing dependency (spawn points, timer, presenter, score manager, a non-blank prefab name, connected and in a room) disables the manager and changes nothing else, the local player instance included; otherwise it does what `BeginMatch` states: the timer is wired, a non-master room keeps its props and log, the master's room logs the timer seed and then the crown write, an earlier spawn is kept, and a first spawn reuses the player's tagged instance or else instantiates the prefab at the selected spawn point, failing only when no spawn point is found |
| `Match.GameManager.ValidateDependencies` | Assets/Scripts/GameManager.cs:60-93 | succeeds exactly when there is at least one spawn point, the timer, presenter and score manager are assigned, the prefab name is not blank and the client is connected and in a room |
| `Match.GameManager.BeginMatch` | Assets/Scripts/GameManager.cs:50-57 | the timer gets its clock, the presenter and the end handler; a non-master room keeps its props and log; the master's room gains the timer seed and the crown write, logged in that order, each only when non-empty; the enabled flag is left as it was; an earlier spawn is kept, and a first spawn reuses the player's tagged instance or else instantiates the prefab at the selected spawn point, succeeding exactly when one is found |
| `Spawn.SortActors` | Assets/Scripts/GameManager.cs:139 | the roster sorted by actor number, as a permutation |
| `Spawn.FindIndex` | Assets/Scripts/GameManager.cs:141 | -1 exactly when the actor is absent, otherwise its first index |
| `Spawn.SpawnIndex` | Assets/Scripts/GameManager.cs:139-148 | the slot chosen is always one of the spawn point slots |
| `Spawn.SpawnIndexIsRank` | Assets/Scripts/GameManager.cs:139-148 | the slot is the number of lower actors modulo the slot count, and 0 for a player not in the roster |
| `Spawn.FirstPresent` | Assets/Scripts/GameManager.cs:154 | the first non-null slot; None exactly when every slot is null |
| `Spawn.SelectSpawnPointFor` | Assets/Scripts/GameManager.cs:133-158 | None exactly when the player is null or every slot is null; otherwise the selected slot, or the first non-null one when it is null |
| `Timer.SeedWrites` | Assets/Scripts/Timer/GameTimer.cs:36-41 | writes each timer key exactly when it is absent: start = now, duration = the default |
| `Timer.SeedCompletes` | Assets/Scripts/Timer/GameTimer.cs:33-44 | after seeding both keys are present, existing values are kept, and the room stays well typed |
| `Timer.SeedIdempotent` | Assets/Scripts/Timer/GameTimer.cs:36-43 | a second seeding by any master writes nothing |
| `Timer.Remaining` | Assets/Scripts/Timer/GameTimer.cs:55-57 | no time is left exactly when the clock has reached start plus duration, and the full duration is left exactly at the start |
| `Timer.RemainingNonIncreasing` | Assets/Scripts/Timer/GameTimer.cs:55-57 | with start and duration fixed, the remaining time never grows as the clock advances |
| `Timer.GameTimer.TryReadRoomProps` | Assets/Scripts/Timer/GameTimer.cs:77-91 | succeeds exactly when there is a room holding both keys, and then loads both values; otherwise they are unchanged |
| `Timer.GameTimer.Initialize` | Assets/Scripts/Timer/GameTimer.cs:26-49 | wires the collaborators; a master makes the seed write only when it is non-empty; initialized exactly when both keys can be read afterwards |
| `Timer.GameTimer.Update` | Assets/Scripts/Timer/GameTimer.cs:51-67 | inactive: nothing; active: shows the remaining time, finishes exactly when it is not positive, and notifies the end handler once |
| `Timer.GameTimer.OnRoomPropertiesUpdate` | Assets/Scripts/Timer/GameTimer.cs:69-75 | a null change set is ignored; `initialized` is set once both keys are readable and is never cleared |
| `TimerText.WholeSeconds` | Assets/Scripts/Timer/TimerTextPresenter.cs:15-18 | 0 for a non-positive time, otherwise the least whole number of seconds not below it |
| `TimerText.FormatNonPositive` | Assets/Scripts/Timer/TimerTextPresenter.cs:15-26 | any time at or below zero shows `00:00` |
| `TimerText.FormatTime` | Assets/Scripts/Timer/TimerTextPresenter.cs:15-26 | the text is at least `mm:ss` long with the colon third from the end, and exactly five characters under 100 minutes |
| `TimerText.FormatRoundTrip` | Assets/Scripts/Timer/TimerTextPresenter.cs:18-26 | the text is digits, a colon, then two digits under 60, and minutes·60 + seconds read back is the whole seconds shown |
| `TimerText.FormatPositiveNotZero` | Assets/Scripts/Timer/TimerTextPresenter.cs:17-18 | any positive real time remaining does not show `00:00` |
| `TimerText.FormatSixtyFive` | Assets/Scripts/Timer/TimerTextPresenter.cs:24-26 | 65 seconds show as `01:05` |
| `TimerText.TimerTextPresenter.SetTime` | Assets/Scripts/Timer/TimerTextPresenter.cs:12-27 | without a text widget nothing changes; otherwise its text becomes the formatted time |
| `Stun.StunRpcs` | Assets/Player/StunHandler.cs:33-66 | something is sent exactly for an owned attacker and a stunnable, not stunned target with a view; the stun goes first, to everybody; the transfer request, naming the attacker and sent to the master, comes second and exactly when the target owns the crown |
| `Stun.TransferWrites` | Assets/Player/StunHandler.cs:73-76 | the commit writes only `CrownOwner`, well typed, and reads back as the new owner |
| `Stun.CommitAllLastWins` | Assets/Player/StunHandler.cs:68-78 | after any run of commits the owner is the last requester, no other key changes, and the room stays well typed |
| `Stun.AttackMovesCrownOnlyFromHolder` | Assets/Player/StunHandler.cs:54-61 | stunning the holder and committing the request gives the attacker the crown; stunning anyone else sends no request |
| `Stun.StunHandler.TryStun` | Assets/Player/StunHandler.cs:33-66 | the calls sent are exactly `StunRpcs` of the inputs, appended in order |
| `Stun.StunHandler.CommitCrownTransfer` | Assets/Player/StunHandler.cs:68-78 | a non-master writes nothing; the master overwrites `CrownOwner` with the requested actor in one write |
| `Player.Grounded` | Assets/Player/PlayerControllerNewInput.cs:100-115 | grounded exactly when the ray hits a surface whose walkable component says walkable |
| `Player.StunStarted` | Assets/Player/PlayerControllerNewInput.cs:125-135 | already stunned: unchanged; otherwise stunned, unable to move, one more end due |
| `Player.StunFinished` | Assets/Player/PlayerControllerNewInput.cs:141-147 | not stunned, free to move, one end fewer due |
| `Player.StunTransitionsPreserve` | Assets/Player/PlayerControllerNewInput.cs:124-148 | both transitions keep "movement blocked only while a stun runs" and the owner's "stunned iff frozen iff one end due"; a stun while stunned is idempotent |
| `Player.OwnerStunCycle` | Assets/Player/PlayerControllerNewInput.cs:124-148 | on the owner, a stun followed by its end restores the free state exactly |
| `Player.Decode` | Assets/Player/PlayerControllerNewInput.cs:166-168 | succeeds exactly when the next three items are a position, a rotation and a flag |
| `Player.Encode` | Assets/Player/PlayerControllerNewInput.cs:158-163 | writing sends three items, and reading them back gives the position, rotation and stun flag written |
| `Player.DecodeEncode` | Assets/Player/PlayerControllerNewInput.cs:156-170 | reading takes back exactly the position, rotation and stun flag written, whatever follows |
| `Player.PlayerController.OnMovePerformed` | Assets/Player/PlayerControllerNewInput.cs:33 | only the owner takes the move input; nothing else changes |
| `Player.PlayerController.OnMoveCanceled` | Assets/Player/PlayerControllerNewInput.cs:34 | only the owner's input drops to zero; nothing else changes |
| `Player.PlayerController.TryJump` | Assets/Player/PlayerControllerNewInput.cs:87-93 | jumps exactly when grounded and free to move |
| `Player.PlayerController.OnJumpPerformed` | Assets/Player/PlayerControllerNewInput.cs:35 | jumps exactly on the owner when grounded and not stunned |
| `Player.PlayerController.GroundCheck` | Assets/Player/PlayerControllerNewInput.cs:95-116 | the grounded flag becomes `Grounded(hit)`; nothing else changes |
| `Player.PlayerController.FixedUpdate` | Assets/Player/PlayerControllerNewInput.cs:61-85 | the owner re-checks the ground and moves exactly when free to move; other copies neither check nor move |
| `Player.PlayerController.OnStunned` | Assets/Player/PlayerControllerNewInput.cs:124-135 | the stun flags follow `StunStarted`; while stunned nothing changes |
| `Player.PlayerController.OnStunEnded` | Assets/Player/PlayerControllerNewInput.cs:141-147 | the stun flags follow `StunFinished` and the rotation is reset to identity |
| `Player.PlayerController.IsStunned` | Assets/Player/PlayerControllerNewInput.cs:151-154 | returns the current stun flag |
| `Player.PlayerController.OnPhotonSerializeView` | Assets/Player/PlayerControllerNewInput.cs:156-170 | the owner appends position, rotation and stun flag; a reader assigns the network pose and the flag from the next three items, in the same order |
| `Chat.AppendBounded` | Assets/Scripts/ChatManager.cs:58-60 | the message ends the history; below the bound nothing is dropped; at the bound only the oldest is dropped, order kept; a history within the bound stays within it |
| `Chat.LastNAppend` | Assets/Scripts/ChatManager.cs:58-60 | trimming to the newest n, appending, then trimming again is trimming once |
| `Chat.AppendAllKeepsNewest` | Assets/Scripts/ChatManager.cs:56-65 | from a bounded history, any run of appends keeps exactly the newest 500 messages, oldest first |
| `Chat.TranscriptLines` | Assets/Scripts/ChatManager.cs:62 | the transcript of single-line messages splits on newlines back into the history |
| `Chat.StoredHistory` | Assets/Scripts/ChatManager.cs:99-101 | the stored array, empty when the key is absent |
| `Chat.SaveWrites` | Assets/Scripts/ChatManager.cs:107-110 | the save writes only `chatHistory`, well typed |
| `Chat.SaveKeepsBound` | Assets/Scripts/ChatManager.cs:97-112 | saving stores the bounded append of the old history, keeps the room bounded and well typed, and leaves other keys alone |
| `Chat.ChatManager.SendMessageToChat` | Assets/Scripts/ChatManager.cs:42-54 | blank input sends nothing; otherwise `nick: msg` is raised with code 1 and the input is cleared |
| `Chat.ChatManager.AppendMessage` | Assets/Scripts/ChatManager.cs:56-65 | the history becomes the bounded append and the text shows it joined by newlines |
| `Chat.ChatManager.SaveMessageToRoom` | Assets/Scripts/ChatManager.cs:97-112 | the room receives exactly `SaveWrites` in one write |
| `Chat.ChatManager.LoadHistoryFromRoom` | Assets/Scripts/ChatManager.cs:114-126 | no room or no stored history: nothing; otherwise the stored history replaces the local one and is shown |
| `Chat.ChatManager.OnEvent` | Assets/Scripts/ChatManager.cs:84-91 | other codes are ignored; a chat event is saved to the room and appended locally |
| `Lobby.ReadyToggleWrites` | Assets/Scripts/LobbyManager.cs:82-86 | the click writes only `isReady`, well typed |
| `Lobby.ToggleNegates` | Assets/Scripts/LobbyManager.cs:82-87 | one click negates the flag, an absent flag counting as false, and touches no other key |
| `Lobby.ToggleParity` | Assets/Scripts/LobbyManager.cs:80-90 | after n clicks the flag is the original one exactly when n is even |
| `Lobby.DoubleToggleRestores` | Assets/Scripts/LobbyManager.cs:80-90 | two clicks restore the original flag |
| `Lobby.LobbyManager.RefreshPlayerList` | Assets/Scripts/LobbyManager.cs:65-78 | every old item is destroyed; the keys are exactly the roster's actors; the new items are fresh and distinct; nothing else changes |
| `Lobby.LobbyManager.Start` | Assets/Scripts/LobbyManager.cs:26-42 | the start button is interactable exactly on the master; outside a room it asks to join one and shows "Joining room...", inside it rebuilds the list |
| `Lobby.RoomStatus` | Assets/Scripts/LobbyManager.cs:46 | the status starts with "Room: ", the room name and " (", and ends with ")" |
| `Lobby.RoomStatusCounts` | Assets/Scripts/LobbyManager.cs:46 | between the parenthesis and the closing ")" the status shows the player count, a slash and the capacity, both in decimal digits that read back as the numbers given |
| `Lobby.LobbyManager.OnJoinedRoom` | Assets/Scripts/LobbyManager.cs:44-48 | shows "Room: name (count/max)" and rebuilds the list |
| `Lobby.LobbyManager.OnMasterClientSwitched` | Assets/Scripts/LobbyManager.cs:60-63 | the start button is interactable exactly on the master |
| `Lobby.LobbyManager.OnReadyClicked` | Assets/Scripts/LobbyManager.cs:80-90 | the local player receives exactly `ReadyToggleWrites` in one write, then the list is rebuilt |
| `Lobby.LobbyManager.OnStartGameClicked` | Assets/Scripts/LobbyManager.cs:97-104 | a non-master does nothing; the master turns on scene sync, then loads "GameScene" |

## Left out

- Physics: forces, knockback, rigid-body constraints, moving and rotating the body, and remote interpolation. `FixedUpdate` and `TryJump` only report whether a move or a jump happens.
- Floating point: times and poses are reals. The single-precision casts in `SetTime` and `Mathf.CeilToInt` rounding are not modelled.
- Replication: delivery delay, ordering across peers, master election and failover. A write is visible locally at once.
- `ScoreManager.TryDetermineWinner` and its scoring: its outcome is an input (`Match.WinnerOutcome`). Its dictionary is a sequence of entries in enumeration order.
- Coroutines: the end of the stun is an explicit event (`OnStunEnded`); the chat's scroll-to-bottom coroutine and canvas refresh are dropped.
- `GameTimer`'s end handler: it is counted in `endNotifications` rather than calling `GameManager.OnMatchTimeEnded`. The two modules are wired together by the caller.
- Scene loading, `PhotonNetwork.Instantiate`, Unity `Instantiate`/`Destroy`: recorded as calls or fresh object identities, not executed.
- Unity lifecycle and UI glue: `Awake`, `OnEnable`/`OnDisable` listener registration, `OnDestroy`, cameras, `GameManager.GetSpawnPoints` (unused), `ChatManager.Start`/`Update`/`OnMessageSubmitted`/`OnJoinedRoom` (they only call `LoadHistoryFromRoom` or `SendMessageToChat`), and `LobbyManager.OnPlayerEnteredRoom`/`OnPlayerLeftRoom`/`OnPlayerPropertiesUpdate` (they only call `RefreshPlayerList`); `PlayerListItem.Setup` and the item's parent widget.
- Crown reassignment when the holder leaves: the code does not implement it.
- A null `spawnPoints` array is treated as the empty one. A null `chatContentText` or `inputField` widget is assumed assigned, as the code dereferences it.
- Chat.ChatManager.SaveMessageToRoom: requires a current room. Outside a room the code dereferences a null `CurrentRoom` (ChatManager.cs:99 and 111) and throws; that crash is not modelled.
- Chat.ChatManager.OnEvent: requires a current room for a chat event. Outside a room the code throws inside `SaveMessageToRoom`, before `AppendMessage`, so the local history is never updated; that crash is not modelled.
- Player.PlayerController.OnPhotonSerializeView: on reading, requires the next three stream items to be a position, a rotation and a flag. A stream whose casts fail (an invalid-cast exception at PlayerControllerNewInput.cs:166-168) is not modelled.
- Stun.StunHandler.TryStun: `PhotonView.RPC` is recorded as a sent call, not delivered; the receiving side is `Player.PlayerController.OnStunned` and `Stun.StunHandler.CommitCrownTransfer`.
