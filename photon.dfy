/**
 * The engine-facing part of the model: the values a Photon custom-property
 * bag can hold, the property bag itself (room or player properties), the keys
 * the match code uses and the types it casts their values to, and the calls
 * into the network layer whose effect is recorded rather than modelled.
 */
module Photon {
  import opened Wrappers

  /** A value stored under a custom-property key. */
  datatype Value =
    | IntV(i: int)
    | RealV(r: real)
    | BoolV(b: bool)
    | IntArray(ints: seq<int>)
    | StringArray(strs: seq<string>)

  /** The shape of a value, as the readers cast it. */
  datatype Kind = IntKind | RealKind | BoolKind | IntArrayKind | StringArrayKind

  function KindOf(v: Value): Kind
  {
    match v
    case IntV(_) => IntKind
    case RealV(_) => RealKind
    case BoolV(_) => BoolKind
    case IntArray(_) => IntArrayKind
    case StringArray(_) => StringArrayKind
  }

  /** A replicated property bag, as seen by the local peer. */
  type Props = map<string, Value>

  // Room keys written by the match code.
  const CrownOwnerKey: string := "CrownOwner"
  const MatchWinnerKey: string := "MatchWinner"
  const MatchScoresActorNumbersKey: string := "MatchScoresActorNumbers"
  const MatchScoresValuesKey: string := "MatchScoresValues"
  const MatchStartKey: string := "matchStartTime"
  const MatchDurationKey: string := "matchDuration"
  const ChatHistoryKey: string := "chatHistory"
  // Player key written by the lobby.
  const IsReadyKey: string := "isReady"

  /** The type every reader casts each known key to. */
  const Schema: map<string, Kind> := map[
    CrownOwnerKey := IntKind,
    MatchWinnerKey := IntKind,
    MatchScoresActorNumbersKey := IntArrayKind,
    MatchScoresValuesKey := IntArrayKind,
    MatchStartKey := RealKind,
    MatchDurationKey := RealKind,
    ChatHistoryKey := StringArrayKind,
    IsReadyKey := BoolKind
  ]

  /** Every known key that is present holds a value of the type its readers cast it to. */
  predicate Typed(props: Props)
  {
    forall k :: k in props && k in Schema ==> KindOf(props[k]) == Schema[k]
  }

  /** Merging well-typed changes into a well-typed bag keeps it well typed. */
  lemma TypedMerge(props: Props, changes: Props)
    requires Typed(props) && Typed(changes)
    ensures Typed(props + changes)
  {
  }

  /** A Unity Vector3 (single-precision floats are modelled as reals). */
  datatype Vec3 = Vec3(x: real, y: real, z: real)

  /** A Unity Quaternion. */
  datatype Quaternion = Quaternion(x: real, y: real, z: real, w: real)

  /** Quaternion.identity. */
  const Identity: Quaternion := Quaternion(0.0, 0.0, 0.0, 1.0)

  /** An object in the scene where something can be placed (position and rotation are not modelled). */
  datatype Transform = Transform(name: string)

  /** A game object created by an instantiation call, identified by creation order. */
  datatype GameObject = GameObject(id: nat)

  /** Calls into the network layer whose effect is recorded, not modelled. */
  datatype NetworkCall =
    | Instantiate(prefab: string, at: Transform)
    | LoadLevel(scene: string)
    | SetAutomaticallySyncScene(on: bool)
    | JoinRandomOrCreateRoom

  /**
   * A custom-property bag (the room's or a player's). A write merges the
   * given keys into the local view; every write is also kept in `log`, so
   * that "no write was issued" can be stated.
   */
  class PropertyBag {
    var props: Props
    var log: seq<Props>

    constructor (initial: Props)
      ensures props == initial && log == []
    {
      props := initial;
      log := [];
    }

    method SetCustomProperties(changes: Props)
      modifies this
      ensures props == old(props) + changes
      ensures log == old(log) + [changes]
    {
      props := props + changes;
      log := log + [changes];
    }
  }
}
