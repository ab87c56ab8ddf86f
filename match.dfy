/**
 * GameManager: the match coordinator. It seeds the crown owner, spawns the
 * local player once, starts the timer, and on the master publishes the
 * winner and a score snapshot when time runs out.
 */
module Match {
  import opened Wrappers
  import opened Text
  import opened Photon
  import opened Spawn
  import opened Timer
  import opened TimerText

  /** The lowest actor number: the first of the roster ordered by actor number. */
  function LowestActor(roster: seq<int>): (a: int)
    requires |roster| > 0
    ensures a in roster
    ensures forall b :: b in roster ==> a <= b
  {
    var sorted := SortActors(roster);
    assert |sorted| == |multiset(sorted)| == |multiset(roster)|;
    assert sorted[0] in multiset(sorted);
    assert forall b :: b in roster ==> b in multiset(sorted);
    sorted[0]
  }

  /** The writes EnsureCrownOwnerExists makes: the lowest actor, only when no owner is recorded and someone is there. */
  function CrownInitWrites(props: Props, roster: seq<int>): (w: Props)
    ensures forall k :: k in w ==> k == CrownOwnerKey
    ensures CrownOwnerKey in w <==> CrownOwnerKey !in props && |roster| > 0
    ensures CrownOwnerKey in w ==>
      && w[CrownOwnerKey].IntV?
      && w[CrownOwnerKey].i in roster
      && forall b :: b in roster ==> w[CrownOwnerKey].i <= b
  {
    if CrownOwnerKey in props || |roster| == 0 then map[]
    else map[CrownOwnerKey := IntV(LowestActor(roster))]
  }

  /** GetCrownOwnerActorNumber; `room` is the current room's properties, None when there is no room. */
  function GetCrownOwnerActorNumber(room: Option<Props>): (r: int)
    requires room.Some? ==> Typed(room.value)
    ensures room.None? || CrownOwnerKey !in room.value ==> r == -1
    ensures room.Some? && CrownOwnerKey in room.value ==> room.value[CrownOwnerKey] == IntV(r)
  {
    if room.Some? && CrownOwnerKey in room.value then
      assert KindOf(room.value[CrownOwnerKey]) == Schema[CrownOwnerKey];
      room.value[CrownOwnerKey].i
    else -1
  }

  /** After the initial write, every peer reads the lowest actor of the roster as the crown owner. */
  lemma CrownInitThenRead(props: Props, roster: seq<int>)
    requires Typed(props)
    requires CrownOwnerKey !in props && |roster| > 0
    ensures Typed(props + CrownInitWrites(props, roster))
    ensures var owner := GetCrownOwnerActorNumber(Some(props + CrownInitWrites(props, roster)));
      owner in roster && forall b :: b in roster ==> owner <= b
  {
    TypedMerge(props, CrownInitWrites(props, roster));
  }

  /** Once an owner is recorded, the initial write writes nothing more, whatever roster a later master sees. */
  lemma CrownInitIdempotent(props: Props, roster: seq<int>, laterRoster: seq<int>)
    requires CrownOwnerKey in props || |roster| > 0
    ensures CrownInitWrites(props + CrownInitWrites(props, roster), laterRoster) == map[]
    ensures CrownOwnerKey in props ==> CrownInitWrites(props, roster) == map[]
  {
  }

  /** Two masters that see the same players, in any order, write the same owner. */
  lemma CrownInitDeterministic(props: Props, roster1: seq<int>, roster2: seq<int>)
    requires forall a :: a in roster1 <==> a in roster2
    ensures CrownInitWrites(props, roster1) == CrownInitWrites(props, roster2)
  {
    if CrownOwnerKey !in props && |roster1| > 0 {
      var x := roster1[0];
      assert x in roster1;
      assert x in roster2;
      var a1, a2 := LowestActor(roster1), LowestActor(roster2);
      assert a1 <= a2 && a2 <= a1;
    }
  }

  /** One entry of the score dictionary, in its enumeration order. */
  datatype ScoreEntry = ScoreEntry(actorNumber: int, score: int)

  /** A dictionary never holds two entries for the same actor number. */
  predicate DistinctActors(entries: seq<ScoreEntry>)
  {
    forall i, j :: 0 <= i < j < |entries| ==> entries[i].actorNumber != entries[j].actorNumber
  }

  /** The two arrays list the snapshot's entries pair by pair, in enumeration order. */
  predicate Packed(entries: seq<ScoreEntry>, actorNumbers: seq<int>, scores: seq<int>)
  {
    && |actorNumbers| == |scores| == |entries|
    && forall i :: 0 <= i < |entries| ==> actorNumbers[i] == entries[i].actorNumber && scores[i] == entries[i].score
  }

  /** Fills the two parallel arrays from the score snapshot, one entry per index. */
  method PackSnapshot(entries: seq<ScoreEntry>) returns (actorNumbers: seq<int>, scores: seq<int>)
    ensures Packed(entries, actorNumbers, scores)
    ensures DistinctActors(entries) ==> forall i, j :: 0 <= i < j < |actorNumbers| ==> actorNumbers[i] != actorNumbers[j]
  {
    var a := new int[|entries|];
    var s := new int[|entries|];
    var index := 0;
    while index < |entries|
      invariant 0 <= index <= |entries|
      invariant forall i :: 0 <= i < index ==> a[i] == entries[i].actorNumber && s[i] == entries[i].score
    {
      a[index] := entries[index].actorNumber;
      s[index] := entries[index].score;
      index := index + 1;
    }
    actorNumbers, scores := a[..], s[..];
  }

  /** The pairs read back in array order (as the result scene reads them). */
  function Unpack(actorNumbers: seq<int>, scores: seq<int>): map<int, int>
    requires |actorNumbers| == |scores|
  {
    if |actorNumbers| == 0 then map[]
    else
      var n := |actorNumbers| - 1;
      Unpack(actorNumbers[..n], scores[..n])[actorNumbers[n] := scores[n]]
  }

  /** Every array index is read back as its pair, and nothing else is. */
  lemma {:induction false} UnpackAt(actorNumbers: seq<int>, scores: seq<int>)
    requires |actorNumbers| == |scores|
    requires forall i, j :: 0 <= i < j < |actorNumbers| ==> actorNumbers[i] != actorNumbers[j]
    ensures forall k :: k in Unpack(actorNumbers, scores) ==> k in actorNumbers
    ensures forall i :: 0 <= i < |actorNumbers| ==>
      actorNumbers[i] in Unpack(actorNumbers, scores) && Unpack(actorNumbers, scores)[actorNumbers[i]] == scores[i]
  {
    if |actorNumbers| > 0 {
      var n := |actorNumbers| - 1;
      UnpackAt(actorNumbers[..n], scores[..n]);
      assert actorNumbers == actorNumbers[..n] + [actorNumbers[n]];
    }
  }

  /** Reading the published arrays back gives every player in the snapshot its score, and no one else. */
  lemma UnpackPacked(entries: seq<ScoreEntry>, actorNumbers: seq<int>, scores: seq<int>)
    requires DistinctActors(entries)
    requires Packed(entries, actorNumbers, scores)
    ensures forall k :: k in Unpack(actorNumbers, scores) ==> exists i :: 0 <= i < |entries| && entries[i].actorNumber == k
    ensures forall i :: 0 <= i < |entries| ==>
      var e := entries[i]; e.actorNumber in Unpack(actorNumbers, scores) && Unpack(actorNumbers, scores)[e.actorNumber] == e.score
  {
    UnpackAt(actorNumbers, scores);
    forall k | k in Unpack(actorNumbers, scores)
      ensures exists i :: 0 <= i < |entries| && entries[i].actorNumber == k
    {
      var i :| 0 <= i < |actorNumbers| && actorNumbers[i] == k;
      assert entries[i].actorNumber == k;
    }
  }

  /** What ScoreManager.TryDetermineWinner returns, taken as an input: its result and its two out values. */
  datatype WinnerOutcome = WinnerOutcome(hasWinner: bool, winner: Option<int>, snapshot: Option<seq<ScoreEntry>>)

  /** The keys OnMatchTimeEnded writes, given the snapshot, beside MatchWinner. */
  predicate PublishesSnapshot(outcome: WinnerOutcome)
  {
    outcome.snapshot.Some? && |outcome.snapshot.value| > 0
  }

  /** `after` is `before` with the winner, and the packed snapshot when it is non-empty, written over it. */
  predicate ResultPublished(before: Props, after: Props, winner: int, outcome: WinnerOutcome)
  {
    && after.Keys == before.Keys + {MatchWinnerKey}
         + (if PublishesSnapshot(outcome) then {MatchScoresActorNumbersKey, MatchScoresValuesKey} else {})
    && after[MatchWinnerKey] == IntV(winner)
    && (forall k :: k in before && k != MatchWinnerKey && k != MatchScoresActorNumbersKey && k != MatchScoresValuesKey
          ==> after[k] == before[k])
    && (!PublishesSnapshot(outcome) ==>
          forall k :: k in before && (k == MatchScoresActorNumbersKey || k == MatchScoresValuesKey) ==> after[k] == before[k])
    && (PublishesSnapshot(outcome) ==>
          && after[MatchScoresActorNumbersKey].IntArray?
          && after[MatchScoresValuesKey].IntArray?
          && Packed(outcome.snapshot.value, after[MatchScoresActorNumbersKey].ints, after[MatchScoresValuesKey].ints))
  }

  /** The single write OnMatchTimeEnded makes: the winner, and the two arrays when there is a snapshot. */
  function ResultWrites(winner: int, actorNumbers: seq<int>, scores: seq<int>, withSnapshot: bool): Props
  {
    var winnerProps := map[MatchWinnerKey := IntV(winner)];
    if withSnapshot then
      winnerProps[MatchScoresActorNumbersKey := IntArray(actorNumbers)][MatchScoresValuesKey := IntArray(scores)]
    else winnerProps
  }

  /** Writing ResultWrites publishes the result and keeps a well-typed room well typed. */
  lemma ResultWritesPublish(before: Props, outcome: WinnerOutcome, actorNumbers: seq<int>, scores: seq<int>)
    requires outcome.winner.Some?
    requires PublishesSnapshot(outcome) ==> Packed(outcome.snapshot.value, actorNumbers, scores)
    ensures var after := before + ResultWrites(outcome.winner.value, actorNumbers, scores, PublishesSnapshot(outcome));
      && ResultPublished(before, after, outcome.winner.value, outcome)
      && (Typed(before) ==> Typed(after))
  {
    var w := ResultWrites(outcome.winner.value, actorNumbers, scores, PublishesSnapshot(outcome));
    assert Typed(w);
    if Typed(before) {
      TypedMerge(before, w);
    }
  }

  /** The local player: PhotonNetwork.LocalPlayer, whose TagObject may hold its spawned instance. */
  class LocalPlayer {
    const actorNumber: int
    var tagObject: Option<GameObject>

    constructor (actorNumber: int, tagObject: Option<GameObject>)
      ensures this.actorNumber == actorNumber && this.tagObject == tagObject
    {
      this.actorNumber := actorNumber;
      this.tagObject := tagObject;
    }
  }

  class GameManager {
    // Inspector configuration (the source's defaults: "PlayerPrefab", 60.0, "ResultScene").
    const playerPrefabName: string
    const spawnPoints: seq<Option<Transform>>
    const gameTimer: GameTimer?
    const timerPresenter: TimerTextPresenter?
    const hasScoreManager: bool
    const matchDurationSeconds: real
    const resultScene: string

    var enabled: bool
    var hasSpawnedLocalPlayer: bool
    var localPlayerInstance: Option<GameObject>
    var instantiations: nat            // PhotonNetwork.Instantiate calls made
    var calls: seq<NetworkCall>

    /** The local player is instantiated at most once, and an instance is kept exactly when the guard is set. */
    predicate Valid()
      reads this
    {
      && instantiations <= (if hasSpawnedLocalPlayer then 1 else 0)
      && (hasSpawnedLocalPlayer <==> localPlayerInstance.Some?)
    }

    constructor (playerPrefabName: string, spawnPoints: seq<Option<Transform>>, gameTimer: GameTimer?,
                 timerPresenter: TimerTextPresenter?, hasScoreManager: bool,
                 matchDurationSeconds: real, resultScene: string)
      ensures Valid()
      ensures this.playerPrefabName == playerPrefabName && this.spawnPoints == spawnPoints
      ensures this.gameTimer == gameTimer && this.timerPresenter == timerPresenter
      ensures this.hasScoreManager == hasScoreManager
      ensures this.matchDurationSeconds == matchDurationSeconds && this.resultScene == resultScene
      ensures enabled && !hasSpawnedLocalPlayer && instantiations == 0 && calls == []
    {
      this.playerPrefabName := playerPrefabName;
      this.spawnPoints := spawnPoints;
      this.gameTimer := gameTimer;
      this.timerPresenter := timerPresenter;
      this.hasScoreManager := hasScoreManager;
      this.matchDurationSeconds := matchDurationSeconds;
      this.resultScene := resultScene;
      enabled := true;
      hasSpawnedLocalPlayer := false;
      localPlayerInstance := None;
      instantiations := 0;
      calls := [];
    }

    /** Every collaborator is assigned and the client is connected and in a room. */
    predicate DependenciesMet(connectedAndReady: bool, inRoom: bool)
      reads this
    {
      && |spawnPoints| > 0
      && gameTimer != null
      && timerPresenter != null
      && hasScoreManager
      && !IsNullOrWhiteSpace(playerPrefabName)
      && connectedAndReady && inRoom
    }

    /**
     * ValidateDependencies: checks the spawn points, the timer, the presenter,
     * the score manager, the prefab name and the connection in that order,
     * failing at the first one missing.
     */
    method ValidateDependencies(connectedAndReady: bool, inRoom: bool) returns (ok: bool)
      ensures ok <==> DependenciesMet(connectedAndReady, inRoom)
    {
      if |spawnPoints| == 0 {
        return false;
      }
      if gameTimer == null {
        return false;
      }
      if timerPresenter == null {
        return false;
      }
      if !hasScoreManager {
        return false;
      }
      if IsNullOrWhiteSpace(playerPrefabName) {
        return false;
      }
      if !connectedAndReady || !inRoom {
        return false;
      }
      return true;
    }

    /** Spawns the local player unless it already was: reuses an instance found on the player, else instantiates at the selected spawn point. */
    method TrySpawnLocalPlayer(localPlayer: LocalPlayer?, roster: seq<int>)
      requires Valid()
      modifies this, localPlayer
      ensures Valid()
      ensures enabled == old(enabled)
      ensures old(hasSpawnedLocalPlayer) || localPlayer == null ==>
        unchanged(this) && (localPlayer != null ==> unchanged(localPlayer))
      ensures !old(hasSpawnedLocalPlayer) && localPlayer != null && old(localPlayer.tagObject).Some? ==>
        && hasSpawnedLocalPlayer && localPlayerInstance == old(localPlayer.tagObject)
        && instantiations == old(instantiations) && calls == old(calls) && unchanged(localPlayer)
      ensures !old(hasSpawnedLocalPlayer) && localPlayer != null && old(localPlayer.tagObject).None? ==>
        var spawn := SelectSpawnPointFor(Some(localPlayer.actorNumber), roster, spawnPoints);
        && (spawn.None? ==> unchanged(this) && unchanged(localPlayer))
        && (spawn.Some? ==>
              && hasSpawnedLocalPlayer
              && localPlayerInstance == Some(GameObject(old(instantiations)))
              && localPlayer.tagObject == localPlayerInstance
              && instantiations == old(instantiations) + 1
              && calls == old(calls) + [Instantiate(playerPrefabName, spawn.value)])
    {
      if hasSpawnedLocalPlayer {
        return;
      }
      if localPlayer == null {
        return;
      }
      if localPlayer.tagObject.Some? {
        localPlayerInstance := localPlayer.tagObject;
        hasSpawnedLocalPlayer := true;
        return;
      }
      var spawnPoint := SelectSpawnPointFor(Some(localPlayer.actorNumber), roster, spawnPoints);
      if spawnPoint.None? {
        return;
      }
      var instance := GameObject(instantiations);
      instantiations := instantiations + 1;
      calls := calls + [Instantiate(playerPrefabName, spawnPoint.value)];
      localPlayerInstance := Some(instance);
      localPlayer.tagObject := localPlayerInstance;
      hasSpawnedLocalPlayer := true;
    }

    /** Seeds the crown owner in the room (called on the master only); nothing when there is no room. */
    static method EnsureCrownOwnerExists(room: PropertyBag?, roster: seq<int>)
      modifies room
      ensures room != null ==>
        var w := CrownInitWrites(old(room.props), roster);
        && room.props == old(room.props) + w
        && room.log == old(room.log) + (if w == map[] then [] else [w])
    {
      if room == null {
        return;
      }
      if CrownOwnerKey !in room.props {
        if |roster| > 0 {
          var crownOwnerActorNumber := LowestActor(roster);
          room.SetCustomProperties(map[CrownOwnerKey := IntV(crownOwnerActorNumber)]);
        }
      }
    }

    /** The timer's end handler: on the master, publish the result when there is a winner, then load the result scene. */
    method OnMatchTimeEnded(isMaster: bool, room: PropertyBag?, outcome: WinnerOutcome)
      requires isMaster ==> room != null
      modifies this`calls, room
      ensures !isMaster ==> calls == old(calls) && (room != null ==> unchanged(room))
      ensures isMaster ==> calls == old(calls) + [LoadLevel(resultScene)]
      ensures isMaster && !(hasScoreManager && outcome.hasWinner && outcome.winner.Some?) ==> unchanged(room)
      ensures isMaster && hasScoreManager && outcome.hasWinner && outcome.winner.Some? ==>
        && ResultPublished(old(room.props), room.props, outcome.winner.value, outcome)
        && |room.log| == |old(room.log)| + 1
        && (old(Typed(room.props)) ==> Typed(room.props))
    {
      if !isMaster {
        return;
      }
      if hasScoreManager {
        if outcome.hasWinner && outcome.winner.Some? {
          var actorNumbers, scores := [], [];
          if outcome.snapshot.Some? && |outcome.snapshot.value| > 0 {
            actorNumbers, scores := PackSnapshot(outcome.snapshot.value);
          }
          var roomProps := ResultWrites(outcome.winner.value, actorNumbers, scores, PublishesSnapshot(outcome));
          ResultWritesPublish(room.props, outcome, actorNumbers, scores);
          room.SetCustomProperties(roomProps);
        }
      }
      calls := calls + [LoadLevel(resultScene)];
    }

    /**
     * Start: disable when a dependency is missing; otherwise start the timer,
     * spawn the local player, and on the master seed the crown owner.
     */
    method Start(isMaster: bool, connectedAndReady: bool, inRoom: bool, room: PropertyBag?,
                 localPlayer: LocalPlayer?, roster: seq<int>, now: real)
      requires Valid()
      requires gameTimer != null ==> gameTimer.Valid()
      requires isMaster ==> room != null
      requires room != null ==> Typed(room.props)
      modifies this, gameTimer, room, localPlayer
      ensures Valid()
      ensures !DependenciesMet(connectedAndReady, inRoom) ==>
        && !enabled
        && hasSpawnedLocalPlayer == old(hasSpawnedLocalPlayer) && calls == old(calls)
        && localPlayerInstance == old(localPlayerInstance)
        && instantiations == old(instantiations)
        && (gameTimer != null ==> unchanged(gameTimer))
        && (room != null ==> unchanged(room))
        && (localPlayer != null ==> unchanged(localPlayer))
      ensures DependenciesMet(connectedAndReady, inRoom) ==>
        && enabled == old(enabled)
        && gameTimer.Valid()
        && gameTimer.hasClock && gameTimer.display == timerPresenter && gameTimer.hasEndHandler
        && (room != null ==> Typed(room.props))
        && (room != null && !isMaster ==> room.props == old(room.props))
        && (isMaster ==>
              room.props == old(room.props) + SeedWrites(old(room.props), now, matchDurationSeconds)
                                            + CrownInitWrites(old(room.props), roster))
        && (room != null && !isMaster ==> room.log == old(room.log))
        && (isMaster ==>
              var seed := SeedWrites(old(room.props), now, matchDurationSeconds);
              var crown := CrownInitWrites(old(room.props), roster);
              room.log == old(room.log) + (if seed == map[] then [] else [seed])
                                        + (if crown == map[] then [] else [crown]))
        && (old(hasSpawnedLocalPlayer) ==> hasSpawnedLocalPlayer && instantiations == old(instantiations))
      ensures DependenciesMet(connectedAndReady, inRoom) && !old(hasSpawnedLocalPlayer) && localPlayer != null ==>
        if old(localPlayer.tagObject).Some? then
          hasSpawnedLocalPlayer && localPlayerInstance == old(localPlayer.tagObject) && calls == old(calls)
        else
          var spawn := SelectSpawnPointFor(Some(localPlayer.actorNumber), roster, spawnPoints);
          && (hasSpawnedLocalPlayer <==> spawn.Some?)
          && (spawn.Some? ==>
                && localPlayerInstance == Some(GameObject(old(instantiations)))
                && localPlayer.tagObject == localPlayerInstance
                && calls == old(calls) + [Instantiate(playerPrefabName, spawn.value)])
    {
      var ok := ValidateDependencies(connectedAndReady, inRoom);
      if !ok {
        enabled := false;
        return;
      }
      BeginMatch(isMaster, room, localPlayer, roster, now);
    }

    /** The part of Start after the dependency check. */
    method BeginMatch(isMaster: bool, room: PropertyBag?, localPlayer: LocalPlayer?, roster: seq<int>, now: real)
      requires Valid()
      requires gameTimer != null && gameTimer.Valid()
      requires isMaster ==> room != null
      requires room != null ==> Typed(room.props)
      modifies this, gameTimer, room, localPlayer
      ensures Valid()
      ensures enabled == old(enabled)
      ensures gameTimer.Valid()
      ensures gameTimer.hasClock && gameTimer.display == timerPresenter && gameTimer.hasEndHandler
      ensures room != null ==> Typed(room.props)
      ensures room != null && !isMaster ==> room.props == old(room.props)
      ensures isMaster ==>
        room.props == old(room.props) + SeedWrites(old(room.props), now, matchDurationSeconds)
                                      + CrownInitWrites(old(room.props), roster)
      ensures room != null && !isMaster ==> room.log == old(room.log)
      ensures isMaster ==>
        var seed := SeedWrites(old(room.props), now, matchDurationSeconds);
        var crown := CrownInitWrites(old(room.props), roster);
        room.log == old(room.log) + (if seed == map[] then [] else [seed])
                                  + (if crown == map[] then [] else [crown])
      ensures old(hasSpawnedLocalPlayer) ==> hasSpawnedLocalPlayer && instantiations == old(instantiations)
      ensures !old(hasSpawnedLocalPlayer) && localPlayer != null && old(localPlayer.tagObject).Some? ==>
        hasSpawnedLocalPlayer && localPlayerInstance == old(localPlayer.tagObject) && calls == old(calls)
      ensures !old(hasSpawnedLocalPlayer) && localPlayer != null && old(localPlayer.tagObject).None? ==>
        var spawn := SelectSpawnPointFor(Some(localPlayer.actorNumber), roster, spawnPoints);
        && (hasSpawnedLocalPlayer <==> spawn.Some?)
        && (spawn.Some? ==>
              && localPlayerInstance == Some(GameObject(old(instantiations)))
              && localPlayer.tagObject == localPlayerInstance
              && calls == old(calls) + [Instantiate(playerPrefabName, spawn.value)])
    {
      gameTimer.Initialize(true, timerPresenter, true, matchDurationSeconds, isMaster, room, now);
      ghost var seeded := if room != null then room.props else map[];
      TrySpawnLocalPlayer(localPlayer, roster);
      if isMaster {
        EnsureCrownOwnerExists(room, roster);
        CrownInitIgnoresSeed(old(room.props), roster, now, matchDurationSeconds);
        TypedMerge(seeded, CrownInitWrites(seeded, roster));
      }
    }
  }

  /** Seeding the timer keys does not change what the crown initialisation writes. */
  lemma CrownInitIgnoresSeed(props: Props, roster: seq<int>, now: real, defaultDurationSec: real)
    ensures CrownInitWrites(props + SeedWrites(props, now, defaultDurationSec), roster)
         == CrownInitWrites(props, roster)
  {
  }
}
