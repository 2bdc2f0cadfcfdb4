/**
  Properties of the controller that relate several calls: the push timer over
  a run of frames, the one-nonzero-change-per-frame limit on direction input, and the
  item pickup lifecycle.
 */
module CharacterProperties {
  import opened EngineMath
  import opened Items
  import opened CharacterRules

  /** Total elapsed time of a run of frames. */
  function Sum(deltaTimes: seq<real>): (r: real) {
    if deltaTimes == [] then 0.0 else deltaTimes[0] + Sum(deltaTimes[1..])
  }

  ghost predicate AllNonNegative(deltaTimes: seq<real>) {
    forall i :: 0 <= i < |deltaTimes| ==> deltaTimes[i] >= 0.0
  }

  lemma {:induction false} SumNonNegative(deltaTimes: seq<real>)
    requires AllNonNegative(deltaTimes)
    ensures Sum(deltaTimes) >= 0.0
  {
    if deltaTimes != [] {
      SumNonNegative(deltaTimes[1..]);
    }
  }

  /** The state after one UpdatePushTime per frame, with the given frame times. */
  function UpdatePushTimes(s: CharacterState, deltaTimes: seq<real>): (r: CharacterState)
    decreases |deltaTimes|
  {
    if deltaTimes == [] then s else UpdatePushTimes(UpdatePushTime(s, deltaTimes[0]), deltaTimes[1..])
  }

  /**
    Over any run of frames the push time moves towards zero by the total
    elapsed time and stops at zero; nothing else changes.
   */
  lemma {:induction false} PushTimerDecay(s: CharacterState, deltaTimes: seq<real>)
    requires AllNonNegative(deltaTimes)
    decreases |deltaTimes|
    ensures UpdatePushTimes(s, deltaTimes) == s.(pushTime := UpdatePushTimes(s, deltaTimes).pushTime)
    ensures s.pushTime >= 0.0 ==>
              UpdatePushTimes(s, deltaTimes).pushTime ==
                (if s.pushTime - Sum(deltaTimes) >= 0.0 then s.pushTime - Sum(deltaTimes) else 0.0)
    ensures s.pushTime <= 0.0 ==>
              UpdatePushTimes(s, deltaTimes).pushTime ==
                (if s.pushTime + Sum(deltaTimes) <= 0.0 then s.pushTime + Sum(deltaTimes) else 0.0)
  {
    if deltaTimes != [] {
      var s1 := UpdatePushTime(s, deltaTimes[0]);
      PushTimerDecay(s1, deltaTimes[1..]);
      SumNonNegative(deltaTimes[1..]);
    }
  }

  /**
    After PushCharacter(v, t), the character is still being pushed after a
    run of frames exactly when their total time is less than t; the push
    vector is kept throughout.
   */
  lemma PushLastsItsDuration(s: CharacterState, pushDirection: Vec, time: real,
                             deltaTimes: seq<real>)
    requires AllNonNegative(deltaTimes)
    ensures var r := UpdatePushTimes(PushCharacter(s, pushDirection, time), deltaTimes);
            IsBeingPushed(r) <==> Sum(deltaTimes) < time
    ensures UpdatePushTimes(PushCharacter(s, pushDirection, time), deltaTimes).pushDirection
              == pushDirection
  {
    PushTimerDecay(PushCharacter(s, pushDirection, time), deltaTimes);
    SumNonNegative(deltaTimes);
  }

  /** The state after feeding the inputs one by one to SetDirection, all in one frame. */
  function SetDirections(s: CharacterState, directions: seq<Vec>, frameCount: int): (r: CharacterState)
    decreases |directions|
  {
    if directions == [] then s
    else SetDirections(SetDirection(s, directions[0], frameCount), directions[1..], frameCount)
  }

  /** How many of those calls recorded the frame, that is, accepted a nonzero direction. */
  function AcceptedInFrame(s: CharacterState, directions: seq<Vec>, frameCount: int): (r: nat)
    decreases |directions|
  {
    if directions == [] then 0
    else
      var s1 := SetDirection(s, directions[0], frameCount);
      (if s1.lastSetDirectionFrameCount != s.lastSetDirectionFrameCount then 1 else 0)
        + AcceptedInFrame(s1, directions[1..], frameCount)
  }

  /**
    Once a nonzero direction has been accepted in a frame, every further call
    in that frame is ignored: the facing direction and the frame record stay,
    and the movement direction stays too, except that a push forces it to the
    push vector.
   */
  lemma {:induction false} FrameLimit(s: CharacterState, directions: seq<Vec>, frameCount: int)
    requires s.lastSetDirectionFrameCount == frameCount
    decreases |directions|
    ensures AcceptedInFrame(s, directions, frameCount) == 0
    ensures SetDirections(s, directions, frameCount).facingDirection == s.facingDirection
    ensures SetDirections(s, directions, frameCount).lastSetDirectionFrameCount == frameCount
    ensures SetDirections(s, directions, frameCount).pushDirection == s.pushDirection
    ensures SetDirections(s, directions, frameCount).pushTime == s.pushTime
    ensures SetDirections(s, directions, frameCount).movementDirection == s.movementDirection ||
            SetDirections(s, directions, frameCount).movementDirection == s.pushDirection
    ensures !IsBeingPushed(s) ==>
              SetDirections(s, directions, frameCount).movementDirection == s.movementDirection
  {
    if directions != [] {
      FrameLimit(SetDirection(s, directions[0], frameCount), directions[1..], frameCount);
    }
  }

  /** However many inputs arrive in one frame, at most one nonzero direction is accepted. */
  lemma {:induction false} AtMostOneAcceptedPerFrame(s: CharacterState, directions: seq<Vec>,
                                                     frameCount: int)
    decreases |directions|
    ensures AcceptedInFrame(s, directions, frameCount) <= 1
  {
    if directions != [] {
      var s1 := SetDirection(s, directions[0], frameCount);
      if s1.lastSetDirectionFrameCount != s.lastSetDirectionFrameCount {
        FrameLimit(s1, directions[1..], frameCount);
      } else {
        AtMostOneAcceptedPerFrame(s1, directions[1..], frameCount);
      }
    }
  }

  /**
    A zero input is accepted without recording the frame, so the movement
    direction can change twice in one frame while only one nonzero direction
    counts as accepted.
   */
  lemma ZeroInputKeepsFrameOpen(s: CharacterState, direction: Vec, frameCount: int)
    requires !s.isFrozen && !s.isAttacking && !IsBeingPushed(s) && s.pickingUpObject == None
    requires frameCount != s.lastSetDirectionFrameCount && direction != Zero
    ensures SetDirection(s, Zero, frameCount).movementDirection == Zero
    ensures SetDirection(s, Zero, frameCount).lastSetDirectionFrameCount == s.lastSetDirectionFrameCount
    ensures SetDirections(s, [Zero, direction], frameCount).movementDirection == direction
    ensures SetDirections(s, [Zero, direction], frameCount).facingDirection == direction
    ensures AcceptedInFrame(s, [Zero, direction], frameCount) == 1
  {
    var s1 := SetDirection(s, Zero, frameCount);
    var s2 := SetDirection(s1, direction, frameCount);
    assert [Zero, direction][1..] == [direction];
    assert [direction][1..] == [];
    assert SetDirections(s1, [direction], frameCount) == s2;
    assert AcceptedInFrame(s1, [direction], frameCount) == 1;
  }

  /**
    A fresh character records frame 0 as its last accepted frame, so any
    input given in frame 0 is ignored.
   */
  lemma FirstFrameInputIgnored(speed: real, hasWeaponParent: bool, hasShieldParent: bool,
                               hasPickupItemParent: bool, direction: Vec)
    ensures var s := Initial(speed, hasWeaponParent, hasShieldParent, hasPickupItemParent);
            SetDirection(s, direction, 0) == s
  {
  }

  /**
    The pickup lifecycle: a successful ShowItemPickup leaves the character
    frozen with the item recorded, so a physics step gives it no velocity;
    a zero input changes nothing; the next
    nonzero input clears the pickup, unfreezes and restores the time scale.
   */
  lemma PickupLifecycle(s: CharacterState, itemType: ItemType, db: ItemDatabase,
                        pickupFrame: int, direction: Vec, inputFrame: int,
                        normalize: Vec -> Vec)
    requires s.hasPickupItemParent && itemType in db && itemType != None
    ensures var p := ShowItemPickup(s, itemType, db, pickupFrame);
            p.isFrozen && p.pickingUpObject == itemType &&
            SetDirection(p, Zero, inputFrame) == p &&
            UpdateMovement(p, normalize).velocity == Zero
    ensures direction != Zero ==>
              var r := SetDirection(ShowItemPickup(s, itemType, db, pickupFrame), direction, inputFrame);
              r.pickingUpObject == None && !r.isFrozen && r.timeScale == 1.0
  {
  }

  /**
    The pickup's downward turn records the frame, so a cancelling input in
    the same frame unfreezes the character but is not taken as a direction.
   */
  lemma PickupCancelledInSameFrame(s: CharacterState, itemType: ItemType, db: ItemDatabase,
                                   frameCount: int, direction: Vec)
    requires s.hasPickupItemParent && itemType in db && itemType != None && direction != Zero
    requires !s.isAttacking && !(s.isFrozen && s.pickingUpObject == None) && !IsBeingPushed(s)
    requires frameCount != s.lastSetDirectionFrameCount
    ensures var r := SetDirection(ShowItemPickup(s, itemType, db, frameCount), direction, frameCount);
            r.pickingUpObject == None && !r.isFrozen &&
            r.movementDirection == Down && r.facingDirection == Down &&
            r.lastSetDirectionFrameCount == frameCount
  {
  }

  /**
    Unfreezing does not cancel the pause coroutine: when the pickup is
    cancelled before the coroutine resumes, the game is paused afterwards
    although the character is no longer frozen.
   */
  lemma PauseOutlivesCancelledPickup(s: CharacterState, itemType: ItemType, db: ItemDatabase,
                                     pickupFrame: int, direction: Vec, inputFrame: int)
    requires s.hasPickupItemParent && itemType in db && itemType != None && direction != Zero
    ensures var r := ResumeFreezeTimeRoutine(
                       SetDirection(ShowItemPickup(s, itemType, db, pickupFrame), direction, inputFrame));
            r.timeScale == 0.0 && !r.isFrozen && r.pickingUpObject == None
  {
  }
}
