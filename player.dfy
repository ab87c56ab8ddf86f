/**
 * PlayerControllerNewInput: the stun and ground flags of one player object,
 * the input callbacks that read them, and the state it streams to the other
 * peers. Rigid-body physics is not modelled: a jump or a move step is
 * reported as an output instead of being applied.
 */
module Player {
  import opened Wrappers
  import opened Photon

  /** A Unity Vector2 (the move input). */
  datatype Vec2 = Vec2(x: real, y: real)

  const Zero2: Vec2 := Vec2(0.0, 0.0)

  /** What the ground ray hit: Some(IsWalkable()) when the collider has an IWalkableSurface, else None. */
  datatype GroundHit = GroundHit(walkable: Option<bool>)

  /** The grounded flag GroundCheck derives from the ray (None: nothing within the check distance). */
  function Grounded(hit: Option<GroundHit>): (g: bool)
    ensures g <==> hit.Some? && hit.value.walkable == Some(true)
  {
    match hit
    case None => false
    case Some(h) => h.walkable.Some? && h.walkable.value
  }

  // ---------------------------------------------------------------------------
  // Stun flags

  /** The stun-related flags, with the number of stun coroutines whose end is still to come. */
  datatype StunState = StunState(isStunned: bool, canMove: bool, pendingEnds: nat)

  /** RPC_OnStunned: ignored while stunned; otherwise stunned, frozen, and one more end event due. */
  function StunStarted(s: StunState): (t: StunState)
    ensures s.isStunned ==> t == s
    ensures !s.isStunned ==> t.isStunned && !t.canMove && t.pendingEnds == s.pendingEnds + 1
  {
    if s.isStunned then s else StunState(true, false, s.pendingEnds + 1)
  }

  /** The end of a stun coroutine: free to move and no longer stunned. */
  function StunFinished(s: StunState): (t: StunState)
    requires s.pendingEnds > 0
    ensures !t.isStunned && t.canMove && t.pendingEnds + 1 == s.pendingEnds
  {
    StunState(false, true, s.pendingEnds - 1)
  }

  /** Holds on every copy: movement is only blocked while a stun is running. */
  predicate Consistent(s: StunState)
  {
    s.pendingEnds == 0 ==> s.canMove
  }

  /** Holds on the owner's copy, whose stun flag only the stun RPC and its end change. */
  predicate OwnerConsistent(s: StunState)
  {
    && s.pendingEnds == (if s.isStunned then 1 else 0)
    && s.canMove == !s.isStunned
  }

  /** Both transitions keep both invariants; a stun while stunned is idempotent. */
  lemma StunTransitionsPreserve(s: StunState)
    ensures Consistent(s) ==> Consistent(StunStarted(s))
    ensures OwnerConsistent(s) ==> OwnerConsistent(StunStarted(s))
    ensures StunStarted(StunStarted(s)) == StunStarted(s)
    ensures s.pendingEnds > 0 ==> Consistent(StunFinished(s))
    ensures s.pendingEnds > 0 && OwnerConsistent(s) ==> OwnerConsistent(StunFinished(s))
  {
  }

  /** On the owner, a stun followed by its end restores a player that was free to move. */
  lemma OwnerStunCycle(s: StunState)
    requires OwnerConsistent(s) && !s.isStunned
    ensures StunStarted(s).pendingEnds > 0
    ensures StunFinished(StunStarted(s)) == s
  {
  }

  // ---------------------------------------------------------------------------
  // Serialization

  /** One value sent through the Photon stream. */
  datatype StreamItem =
    | PositionItem(position: Vec3)
    | RotationItem(rotation: Quaternion)
    | BoolItem(flag: bool)

  /** The state one update carries. */
  datatype SyncState = SyncState(position: Vec3, rotation: Quaternion, isStunned: bool)

  /** What the writing side sends, in order: position, rotation, stun flag. */
  function Encode(s: SyncState): (items: seq<StreamItem>)
    ensures |items| == 3
    ensures Decode(items) == Some(s)
  {
    [PositionItem(s.position), RotationItem(s.rotation), BoolItem(s.isStunned)]
  }

  /** What the reading side takes from the front of the stream; None when a cast would fail. */
  function Decode(items: seq<StreamItem>): (r: Option<SyncState>)
    ensures r.Some? <==> |items| >= 3 && items[0].PositionItem? && items[1].RotationItem? && items[2].BoolItem?
  {
    if |items| >= 3 && items[0].PositionItem? && items[1].RotationItem? && items[2].BoolItem? then
      Some(SyncState(items[0].position, items[1].rotation, items[2].flag))
    else None
  }

  /** Reading takes back exactly what writing sent, whatever follows in the stream. */
  lemma DecodeEncode(s: SyncState, rest: seq<StreamItem>)
    ensures Decode(Encode(s) + rest) == Some(s)
  {
    assert (Encode(s) + rest)[..3] == Encode(s);
  }

  /** The stream of one OnPhotonSerializeView call. */
  class PhotonStream {
    const isWriting: bool
    var items: seq<StreamItem>
    var readPos: nat

    constructor (isWriting: bool, items: seq<StreamItem>)
      ensures this.isWriting == isWriting && this.items == items && readPos == 0
    {
      this.isWriting := isWriting;
      this.items := items;
      readPos := 0;
    }

    method SendNext(item: StreamItem)
      modifies this
      ensures items == old(items) + [item] && readPos == old(readPos)
    {
      items := items + [item];
    }

    method ReceiveNext() returns (item: StreamItem)
      requires readPos < |items|
      modifies this
      ensures items == old(items) && readPos == old(readPos) + 1
      ensures item == items[old(readPos)]
    {
      item := items[readPos];
      readPos := readPos + 1;
    }
  }

  // ---------------------------------------------------------------------------
  // The controller

  class PlayerController {
    const isMine: bool                  // photonView.IsMine
    var moveInput: Vec2
    var networkPosition: Vec3
    var networkRotation: Quaternion
    var isGrounded: bool
    var canMove: bool
    var isStunned: bool
    var pendingStunEnds: nat            // stun coroutines started and not yet finished
    var position: Vec3                  // rb.position
    var rotation: Quaternion            // transform.rotation

    function Stun(): StunState
      reads this
    {
      StunState(isStunned, canMove, pendingStunEnds)
    }

    predicate Valid()
      reads this
    {
      && Consistent(Stun())
      && (isMine ==> OwnerConsistent(Stun()))
    }

    /** Awake and Start: not grounded, free to move, not stunned; the network target starts at the spawn pose. */
    constructor (isMine: bool, position: Vec3, rotation: Quaternion)
      ensures Valid()
      ensures this.isMine == isMine && this.position == position && this.rotation == rotation
      ensures networkPosition == position && networkRotation == rotation
      ensures !isGrounded && canMove && !isStunned && pendingStunEnds == 0 && moveInput == Zero2
    {
      this.isMine := isMine;
      this.position := position;
      this.rotation := rotation;
      moveInput := Zero2;
      isGrounded := false;
      canMove := true;
      isStunned := false;
      pendingStunEnds := 0;
      networkPosition := position;
      networkRotation := rotation;
    }

    /** The Move.performed callback: only the owner takes the input. */
    method OnMovePerformed(value: Vec2)
      modifies this
      ensures moveInput == (if isMine then value else old(moveInput))
      ensures Stun() == old(Stun()) && isGrounded == old(isGrounded)
      ensures position == old(position) && rotation == old(rotation)
      ensures networkPosition == old(networkPosition) && networkRotation == old(networkRotation)
    {
      if isMine {
        moveInput := value;
      }
    }

    /** The Move.canceled callback: the owner's input drops to zero. */
    method OnMoveCanceled()
      modifies this
      ensures moveInput == (if isMine then Zero2 else old(moveInput))
      ensures Stun() == old(Stun()) && isGrounded == old(isGrounded)
      ensures position == old(position) && rotation == old(rotation)
      ensures networkPosition == old(networkPosition) && networkRotation == old(networkRotation)
    {
      if isMine {
        moveInput := Zero2;
      }
    }

    /** TryJump: an upward impulse is applied exactly when grounded and free to move. */
    method TryJump() returns (jumped: bool)
      ensures jumped <==> isGrounded && canMove
    {
      jumped := false;
      if isGrounded && canMove {
        jumped := true;
      }
    }

    /** The Jump.performed callback: only the owner tries to jump. */
    method OnJumpPerformed() returns (jumped: bool)
      requires Valid()
      ensures jumped <==> isMine && isGrounded && !isStunned
    {
      jumped := false;
      if isMine {
        jumped := TryJump();
      }
    }

    /** GroundCheck: grounded exactly when the ray hits a walkable surface. */
    method GroundCheck(hit: Option<GroundHit>)
      modifies this
      ensures isGrounded == Grounded(hit)
      ensures Stun() == old(Stun()) && moveInput == old(moveInput)
      ensures position == old(position) && rotation == old(rotation)
      ensures networkPosition == old(networkPosition) && networkRotation == old(networkRotation)
    {
      if hit.Some? {
        var walkable := hit.value.walkable;
        if walkable.Some? && walkable.value {
          isGrounded := true;
        } else {
          isGrounded := false;
        }
      } else {
        isGrounded := false;
      }
    }

    /**
     * FixedUpdate: the owner re-checks the ground and steps toward its input
     * when free to move (`moved`); other copies interpolate toward the network
     * pose, which is left to the physics and not modelled.
     */
    method FixedUpdate(groundHit: Option<GroundHit>) returns (moved: bool)
      requires Valid()
      modifies this
      ensures Valid()
      ensures isGrounded == (if isMine then Grounded(groundHit) else old(isGrounded))
      ensures moved <==> isMine && canMove
      ensures Stun() == old(Stun()) && moveInput == old(moveInput)
      ensures networkPosition == old(networkPosition) && networkRotation == old(networkRotation)
    {
      moved := false;
      if isMine {
        GroundCheck(groundHit);
        if canMove {
          moved := true;
        }
      }
    }

    /** RPC_OnStunned with the start of StunCoroutine: ignored while already stunned. */
    method OnStunned(attackerPosition: Vec3)
      requires Valid()
      modifies this
      ensures Valid()
      ensures Stun() == StunStarted(old(Stun()))
      ensures old(isStunned) ==> unchanged(this)
      ensures isGrounded == old(isGrounded) && moveInput == old(moveInput)
      ensures position == old(position) && rotation == old(rotation)
      ensures networkPosition == old(networkPosition) && networkRotation == old(networkRotation)
    {
      StunTransitionsPreserve(Stun());
      if isStunned {
        return;
      }
      isStunned := true;
      canMove := false;
      pendingStunEnds := pendingStunEnds + 1;
    }

    /** The end of StunCoroutine, two seconds later: upright again, free to move, not stunned. */
    method OnStunEnded()
      requires Valid()
      requires pendingStunEnds > 0
      modifies this
      ensures Valid()
      ensures Stun() == StunFinished(old(Stun()))
      ensures rotation == Identity
      ensures isGrounded == old(isGrounded) && moveInput == old(moveInput) && position == old(position)
      ensures networkPosition == old(networkPosition) && networkRotation == old(networkRotation)
    {
      StunTransitionsPreserve(Stun());
      rotation := Identity;
      canMove := true;
      isStunned := false;
      pendingStunEnds := pendingStunEnds - 1;
    }

    /** IStunable.IsStunned. */
    method IsStunned() returns (stunned: bool)
      ensures stunned == isStunned
    {
      stunned := isStunned;
    }

    /**
     * OnPhotonSerializeView: the owner writes its state, the other copies read
     * it into the network pose and the stun flag, in the same order.
     */
    method OnPhotonSerializeView(stream: PhotonStream)
      requires Valid()
      requires stream.isWriting == isMine
      requires !stream.isWriting ==>
        stream.readPos <= |stream.items| && Decode(stream.items[stream.readPos..]).Some?
      modifies this, stream
      ensures Valid()
      ensures stream.isWriting ==>
        && stream.items == old(stream.items) + Encode(SyncState(position, rotation, isStunned))
        && stream.readPos == old(stream.readPos)
        && unchanged(this)
      ensures !stream.isWriting ==>
        && SyncState(networkPosition, networkRotation, isStunned)
             == Decode(old(stream.items)[old(stream.readPos)..]).value
        && stream.items == old(stream.items) && stream.readPos == old(stream.readPos) + 3
        && canMove == old(canMove) && pendingStunEnds == old(pendingStunEnds)
        && isGrounded == old(isGrounded) && moveInput == old(moveInput)
        && position == old(position) && rotation == old(rotation)
    {
      if stream.isWriting {
        stream.SendNext(PositionItem(position));
        stream.SendNext(RotationItem(rotation));
        stream.SendNext(BoolItem(isStunned));
      } else {
        var a := stream.ReceiveNext();
        networkPosition := a.position;
        var b := stream.ReceiveNext();
        networkRotation := b.rotation;
        var c := stream.ReceiveNext();
        isStunned := c.flag;
      }
    }
  }
}
