/**
 * LobbyManager: the pre-match room screen. It keeps one list item per
 * player, toggles the local player's ready flag, and lets only the master
 * start the match.
 */
module Lobby {
  import opened Text
  import opened Photon

  const GameSceneName: string := "GameScene"
  const JoiningStatus: string := "Joining room..."

  /** The local player's ready flag; an absent value reads as false. */
  predicate IsReady(props: Props)
    requires Typed(props)
  {
    IsReadyKey in props && props[IsReadyKey].b
  }

  /** What OnReadyClicked writes to the local player's properties. */
  function ReadyToggleWrites(props: Props): (w: Props)
    requires Typed(props)
    ensures Typed(w) && IsReadyKey in w
    ensures forall k :: k in w ==> k == IsReadyKey
  {
    map[IsReadyKey := BoolV(!IsReady(props))]
  }

  /** The player's properties after `n` clicks on the ready button. */
  function ToggleTimes(props: Props, n: nat): (after: Props)
    requires Typed(props)
    ensures Typed(after)
    decreases n
  {
    if n == 0 then props
    else
      var next := props + ReadyToggleWrites(props);
      TypedMerge(props, ReadyToggleWrites(props));
      ToggleTimes(next, n - 1)
  }

  /**
   * One click negates the flag (so the first click on a fresh player makes it
   * ready) and touches no other key.
   */
  lemma ToggleNegates(props: Props)
    requires Typed(props)
    ensures var after := props + ReadyToggleWrites(props);
      && Typed(after)
      && IsReady(after) == !IsReady(props)
      && (IsReadyKey !in props ==> IsReady(after))
      && forall k :: k != IsReadyKey ==> (k in after <==> k in props) && (k in props ==> after[k] == props[k])
  {
    TypedMerge(props, ReadyToggleWrites(props));
  }

  /** After `n` clicks the player is ready exactly when it was ready before and `n` is even, or not and `n` is odd. */
  lemma {:induction false} ToggleParity(props: Props, n: nat)
    requires Typed(props)
    ensures IsReady(ToggleTimes(props, n)) == (IsReady(props) == (n % 2 == 0))
    decreases n
  {
    if n > 0 {
      ToggleNegates(props);
      ToggleParity(props + ReadyToggleWrites(props), n - 1);
    }
  }

  /** Two consecutive clicks restore the original flag. */
  lemma DoubleToggleRestores(props: Props)
    requires Typed(props)
    ensures IsReady(ToggleTimes(props, 2)) == IsReady(props)
  {
    ToggleParity(props, 2);
  }

  /** "Room: <name> (<count>/<max>)". */
  function RoomStatus(roomName: string, playerCount: nat, maxPlayers: nat): (r: string)
    ensures |r| > |"Room: " + roomName + " ("| + 3
    ensures r[..|"Room: " + roomName + " ("|] == "Room: " + roomName + " ("
    ensures r[|r| - 1] == ')'
  {
    DecimalRoundTrip(playerCount);
    DecimalRoundTrip(maxPlayers);
    "Room: " + roomName + " (" + Decimal(playerCount) + "/" + Decimal(maxPlayers) + ")"
  }

  /** The status shows the player count, a slash and the room capacity, each reading back as written. */
  lemma RoomStatusCounts(roomName: string, playerCount: nat, maxPlayers: nat)
    ensures var r := RoomStatus(roomName, playerCount, maxPlayers);
      var p := |"Room: " + roomName + " ("|;
      var dc := Decimal(playerCount);
      var dm := Decimal(maxPlayers);
      && p + |dc| + 1 < |r|
      && r[p..p + |dc|] == dc && r[p + |dc|] == '/' && r[p + |dc| + 1..|r| - 1] == dm
      && (forall i :: 0 <= i < |dc| ==> IsDigit(dc[i])) && DigitsValue(dc) == playerCount
      && (forall i :: 0 <= i < |dm| ==> IsDigit(dm[i])) && DigitsValue(dm) == maxPlayers
  {
    DecimalRoundTrip(playerCount);
    DecimalRoundTrip(maxPlayers);
  }

  class LobbyManager {
    var listItems: map<int, GameObject>   // actor number -> its list item
    var destroyed: set<GameObject>        // items handed to Destroy
    var created: nat                      // items instantiated so far; the next one is GameObject(created)
    var startInteractable: bool           // startGameButton.interactable
    var statusText: string
    var calls: seq<NetworkCall>

    /** Every item was created here, and the ones still listed were not destroyed. */
    predicate Valid()
      reads this
    {
      && (forall g :: g in listItems.Values ==> g.id < created && g !in destroyed)
      && (forall g :: g in destroyed ==> g.id < created)
    }

    constructor (statusText: string)
      ensures Valid()
      ensures listItems == map[] && destroyed == {} && created == 0 && calls == []
      ensures this.statusText == statusText && !startInteractable
    {
      listItems := map[];
      destroyed := {};
      created := 0;
      startInteractable := false;
      this.statusText := statusText;
      calls := [];
    }

    /**
     * RefreshPlayerList: destroys every listed item and creates a new one per
     * player of `roster` (PhotonNetwork.PlayerList), keyed by actor number.
     */
    method RefreshPlayerList(roster: seq<int>)
      requires Valid()
      modifies this
      ensures Valid()
      ensures forall a :: a in listItems <==> a in roster
      ensures destroyed == old(destroyed) + old(listItems).Values
      ensures created == old(created) + |roster|
      ensures forall a :: a in listItems ==> old(created) <= listItems[a].id
      ensures forall a, b :: a in listItems && b in listItems && a != b ==> listItems[a] != listItems[b]
      ensures startInteractable == old(startInteractable) && statusText == old(statusText) && calls == old(calls)
    {
      destroyed := destroyed + listItems.Values;
      listItems := map[];
      var i := 0;
      while i < |roster|
        invariant 0 <= i <= |roster|
        invariant created == old(created) + i
        invariant destroyed == old(destroyed) + old(listItems).Values
        invariant forall g :: g in destroyed ==> g.id < old(created)
        invariant forall a :: a in listItems <==> a in roster[..i]
        invariant forall a :: a in listItems ==> old(created) <= listItems[a].id < created
        invariant forall g :: g in listItems.Values ==> old(created) <= g.id < created
        invariant forall a, b :: a in listItems && b in listItems && a != b ==> listItems[a] != listItems[b]
        invariant startInteractable == old(startInteractable) && statusText == old(statusText) && calls == old(calls)
      {
        var go := GameObject(created);
        created := created + 1;
        listItems := listItems[roster[i] := go];
        assert roster[..i + 1] == roster[..i] + [roster[i]];
        i := i + 1;
      }
      assert roster[..i] == roster;
    }

    /** Start: the start button follows mastership; outside a room, ask to join one, else list the players. */
    method Start(isMaster: bool, inRoom: bool, roster: seq<int>)
      requires Valid()
      modifies this
      ensures Valid()
      ensures startInteractable == isMaster
      ensures !inRoom ==>
        && calls == old(calls) + [JoinRandomOrCreateRoom] && statusText == JoiningStatus
        && listItems == old(listItems) && destroyed == old(destroyed) && created == old(created)
      ensures inRoom ==>
        && calls == old(calls) && statusText == old(statusText)
        && (forall a :: a in listItems <==> a in roster)
        && destroyed == old(destroyed) + old(listItems).Values
    {
      startInteractable := isMaster;
      if !inRoom {
        calls := calls + [JoinRandomOrCreateRoom];
        statusText := JoiningStatus;
      } else {
        RefreshPlayerList(roster);
      }
    }

    /** OnJoinedRoom: show the room and its occupancy, then list the players. */
    method OnJoinedRoom(roomName: string, playerCount: nat, maxPlayers: nat, roster: seq<int>)
      requires Valid()
      modifies this
      ensures Valid()
      ensures statusText == RoomStatus(roomName, playerCount, maxPlayers)
      ensures forall a :: a in listItems <==> a in roster
      ensures destroyed == old(destroyed) + old(listItems).Values
      ensures startInteractable == old(startInteractable) && calls == old(calls)
    {
      statusText := RoomStatus(roomName, playerCount, maxPlayers);
      RefreshPlayerList(roster);
    }

    /** OnMasterClientSwitched: the start button follows mastership. */
    method OnMasterClientSwitched(isMaster: bool)
      modifies this
      ensures startInteractable == isMaster
      ensures listItems == old(listItems) && destroyed == old(destroyed) && created == old(created)
      ensures statusText == old(statusText) && calls == old(calls)
    {
      startInteractable := isMaster;
    }

    /** OnReadyClicked: negate the local player's ready flag, then list the players again. */
    method OnReadyClicked(localPlayer: PropertyBag, roster: seq<int>)
      requires Valid()
      requires Typed(localPlayer.props)
      modifies this, localPlayer
      ensures Valid()
      ensures localPlayer.props == old(localPlayer.props) + ReadyToggleWrites(old(localPlayer.props))
      ensures localPlayer.log == old(localPlayer.log) + [ReadyToggleWrites(old(localPlayer.props))]
      ensures forall a :: a in listItems <==> a in roster
      ensures destroyed == old(destroyed) + old(listItems).Values
      ensures startInteractable == old(startInteractable) && statusText == old(statusText) && calls == old(calls)
    {
      var currentReady := if IsReadyKey in localPlayer.props then localPlayer.props[IsReadyKey].b else false;
      var props := map[IsReadyKey := BoolV(!currentReady)];
      localPlayer.SetCustomProperties(props);
      RefreshPlayerList(roster);
    }

    /** OnStartGameClicked: only the master starts, turning on scene sync before loading the game scene. */
    method OnStartGameClicked(isMaster: bool)
      modifies this
      ensures calls == old(calls) + (if isMaster then [SetAutomaticallySyncScene(true), LoadLevel(GameSceneName)] else [])
      ensures listItems == old(listItems) && destroyed == old(destroyed) && created == old(created)
      ensures startInteractable == old(startInteractable) && statusText == old(statusText)
    {
      if !isMaster {
        return;
      }
      calls := calls + [SetAutomaticallySyncScene(true)];
      calls := calls + [LoadLevel(GameSceneName)];
    }
  }
}
