/**
 * StunHandler: the attack of the locally owned player. A ray hit decides
 * whether a stun is sent to the target and, when the target holds the
 * crown, whether the attacker asks the master for the crown; the master
 * commits such a request by writing the crown owner.
 */
module Stun {
  import opened Wrappers
  import opened Photon
  import opened Match

  /**
   * What the attack ray hit within range: `stunnable` is the target's
   * IStunable component, given as the value of its IsStunned(), and
   * `viewOwner` is the actor number owning its PhotonView; each is None
   * when the collider has no such component.
   */
  datatype Hit = Hit(stunnable: Option<bool>, viewOwner: Option<int>)

  datatype RpcTarget = All | MasterClient

  /** The remote calls TryStun sends. */
  datatype Rpc =
    | OnStunned(targetOwner: int, to: RpcTarget, attackerPosition: Vec3)
    | RequestCrownTransfer(newOwner: int, to: RpcTarget)

  /** The ray hit something stunnable, not already stunned, with a PhotonView. */
  predicate StunTarget(hit: Option<Hit>)
  {
    && hit.Some?
    && hit.value.stunnable == Some(false)
    && hit.value.viewOwner.Some?
  }

  /** The room holds the crown and `actor` owns it. */
  predicate OwnsCrown(room: Option<Props>, actor: int)
    requires room.Some? ==> Typed(room.value)
  {
    room.Some? && CrownOwnerKey in room.value && room.value[CrownOwnerKey].i == actor
  }

  /**
   * The calls one attack sends, in order: a stun to everybody for a valid
   * target, then, only when that target owns the crown, a transfer request
   * to the master naming the attacker.
   */
  function StunRpcs(isMine: bool, hit: Option<Hit>, position: Vec3, room: Option<Props>, localActor: int): (sent: seq<Rpc>)
    requires room.Some? ==> Typed(room.value)
    ensures |sent| <= 2
    ensures |sent| > 0 <==> isMine && StunTarget(hit)
    ensures |sent| > 0 ==> sent[0] == OnStunned(hit.value.viewOwner.value, All, position)
    ensures |sent| == 2 <==> isMine && StunTarget(hit) && OwnsCrown(room, hit.value.viewOwner.value)
    ensures |sent| == 2 ==> sent[1] == RequestCrownTransfer(localActor, MasterClient)
    ensures forall i :: 0 <= i < |sent| && sent[i].RequestCrownTransfer? ==> i > 0 && sent[i - 1].OnStunned?
  {
    if !isMine || !StunTarget(hit) then []
    else
      var stun := OnStunned(hit.value.viewOwner.value, All, position);
      if OwnsCrown(room, hit.value.viewOwner.value) then [stun, RequestCrownTransfer(localActor, MasterClient)]
      else [stun]
  }

  /** What the master writes when it commits a transfer request. */
  function TransferWrites(newOwner: int): (w: Props)
    ensures Typed(w)
    ensures CrownOwnerKey in w && GetCrownOwnerActorNumber(Some(w)) == newOwner
    ensures forall k :: k in w ==> k == CrownOwnerKey
  {
    map[CrownOwnerKey := IntV(newOwner)]
  }

  /** The room after the master has committed `requests` in the order processed. */
  function CommitAll(props: Props, requests: seq<int>): (after: Props)
    ensures Typed(props) ==> Typed(after)
    decreases |requests|
  {
    if |requests| == 0 then props
    else CommitAll(props + TransferWrites(requests[0]), requests[1..])
  }

  /**
   * Every commit overwrites the crown owner, so once any request is
   * committed the owner is the last one processed, no other key changes,
   * and the room stays well typed.
   */
  lemma {:induction false} CommitAllLastWins(props: Props, requests: seq<int>)
    requires Typed(props)
    decreases |requests|
    ensures var after := CommitAll(props, requests);
      && Typed(after)
      && (|requests| == 0 ==> after == props)
      && (|requests| > 0 ==> GetCrownOwnerActorNumber(Some(after)) == requests[|requests| - 1])
      && forall k :: k != CrownOwnerKey ==> (k in after <==> k in props) && (k in props ==> after[k] == props[k])
  {
    if |requests| > 0 {
      var next := props + TransferWrites(requests[0]);
      TypedMerge(props, TransferWrites(requests[0]));
      CommitAllLastWins(next, requests[1..]);
      if |requests| > 1 {
        assert requests[1..][|requests[1..]| - 1] == requests[|requests| - 1];
      }
    }
  }

  /**
   * Defeating the crown holder hands the crown to the attacker once the master
   * commits the request the attack sent; an attack on anyone else sends no
   * request, so the crown stays where it was.
   */
  lemma AttackMovesCrownOnlyFromHolder(hit: Option<Hit>, position: Vec3, room: Props, localActor: int)
    requires Typed(room)
    requires StunTarget(hit)
    ensures var sent := StunRpcs(true, hit, position, Some(room), localActor);
      && (OwnsCrown(Some(room), hit.value.viewOwner.value) ==>
            GetCrownOwnerActorNumber(Some(CommitAll(room, [sent[1].newOwner]))) == localActor)
      && (!OwnsCrown(Some(room), hit.value.viewOwner.value) ==>
            forall i :: 0 <= i < |sent| ==> !sent[i].RequestCrownTransfer?)
  {
    var sent := StunRpcs(true, hit, position, Some(room), localActor);
    if OwnsCrown(Some(room), hit.value.viewOwner.value) {
      CommitAllLastWins(room, [sent[1].newOwner]);
    }
  }

  /** The attack component of one player object. */
  class StunHandler {
    const isMine: bool          // photonView.IsMine
    var sent: seq<Rpc>          // every RPC sent so far

    constructor (isMine: bool)
      ensures this.isMine == isMine && sent == []
    {
      this.isMine := isMine;
      sent := [];
    }

    /** TryStun; `hit` is the result of the ray cast of attack range, `room` the current room's properties. */
    method TryStun(hit: Option<Hit>, position: Vec3, room: Option<Props>, localActor: int)
      requires room.Some? ==> Typed(room.value)
      modifies this
      ensures sent == old(sent) + StunRpcs(isMine, hit, position, room, localActor)
    {
      if !isMine {
        return;
      }
      if hit.Some? {
        var stunnable := hit.value.stunnable;
        if stunnable.Some? && stunnable.value == false {
          var targetView := hit.value.viewOwner;
          if targetView.Some? {
            sent := sent + [OnStunned(targetView.value, All, position)];
            if room.Some? && CrownOwnerKey in room.value {
              var crownOwner := room.value[CrownOwnerKey].i;
              if targetView.value == crownOwner {
                sent := sent + [RequestCrownTransfer(localActor, MasterClient)];
              }
            }
          }
        }
      }
    }

    /** The RequestCrownTransfer RPC: only the master commits, overwriting the crown owner. */
    static method CommitCrownTransfer(isMaster: bool, room: PropertyBag?, newOwnerActorNumber: int)
      requires isMaster ==> room != null
      modifies room
      ensures !isMaster && room != null ==> unchanged(room)
      ensures isMaster ==>
        && room.props == CommitAll(old(room.props), [newOwnerActorNumber])
        && room.log == old(room.log) + [TransferWrites(newOwnerActorNumber)]
    {
      if !isMaster {
        return;
      }
      var props := map[CrownOwnerKey := IntV(newOwnerActorNumber)];
      room.SetCustomProperties(props);
    }
  }
}
