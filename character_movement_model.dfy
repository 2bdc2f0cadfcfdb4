/**
  The character controller as an object whose fields are updated in place.
  The engine's per-frame values (frame number, elapsed time) are parameters,
  the rigid body's velocity and the engine's time scale are fields, and the
  item database is passed to the operations that consult it.
 */
module CharacterMovement {
  import opened EngineMath
  import opened Items
  import Rules = CharacterRules

  class CharacterMovementModel {
    // configuration
    var speed: real
    var hasWeaponParent: bool
    var hasShieldParent: bool
    var hasPickupItemParent: bool
    /** The engine's vector normalisation. */
    const normalize: Vec -> Vec

    // controller state
    var movementDirection: Vec
    var facingDirection: Vec
    var isFrozen: bool
    var isAttacking: bool
    var pickingUpObject: ItemType
    var equippedWeapon: ItemType
    var equippedShield: ItemType
    var pushDirection: Vec
    var pushTime: real
    var lastSetDirectionFrameCount: int

    // engine state the controller writes
    var velocity: Vec
    var timeScale: real
    var pausePending: bool
    var attackFinishedNotices: nat

    /** The fields as one value. */
    function State(): Rules.CharacterState
      reads this
    {
      Rules.CharacterState(speed, hasWeaponParent, hasShieldParent, hasPickupItemParent,
                           movementDirection, facingDirection, isFrozen, isAttacking,
                           pickingUpObject, equippedWeapon, equippedShield,
                           pushDirection, pushTime, lastSetDirectionFrameCount,
                           velocity, timeScale, pausePending, attackFinishedNotices)
    }

    constructor (speed: real, hasWeaponParent: bool, hasShieldParent: bool,
                 hasPickupItemParent: bool, normalize: Vec -> Vec)
      ensures State() == Rules.Initial(speed, hasWeaponParent, hasShieldParent, hasPickupItemParent)
      ensures this.normalize == normalize
    {
      this.speed := speed;
      this.hasWeaponParent := hasWeaponParent;
      this.hasShieldParent := hasShieldParent;
      this.hasPickupItemParent := hasPickupItemParent;
      this.normalize := normalize;
      movementDirection, facingDirection := Zero, Zero;
      isFrozen, isAttacking := false, false;
      pickingUpObject, equippedWeapon, equippedShield := None, None, None;
      pushDirection, pushTime := Zero, 0.0;
      lastSetDirectionFrameCount := 0;
      velocity, timeScale, pausePending := Zero, 1.0, false;
      attackFinishedNotices := 0;
    }

    method UpdatePushTime(deltaTime: real)
      modifies this
      ensures State() == Rules.UpdatePushTime(old(State()), deltaTime)
    {
      pushTime := MoveTowards(pushTime, 0.0, deltaTime);
    }

    method UpdateMovement()
      modifies this
      ensures State() == Rules.UpdateMovement(old(State()), normalize)
      ensures old(isFrozen) || old(isAttacking) ==> velocity == Zero
    {
      if isFrozen || isAttacking {
        velocity := Zero;
        return;
      }
      if movementDirection != Zero {
        movementDirection := normalize(movementDirection);
      }
      var pushed := IsBeingPushed();
      if pushed {
        velocity := pushDirection;
      } else {
        velocity := Scale(movementDirection, speed);
      }
    }

    method IsBeingPushed() returns (pushed: bool)
      ensures pushed <==> pushTime > 0.0
      ensures pushed == Rules.IsBeingPushed(State())
    {
      pushed := pushTime > 0.0;
    }

    method SetFrozen(isFrozen: bool, affectGameTime: bool)
      modifies this
      ensures State() == Rules.SetFrozen(old(State()), isFrozen, affectGameTime)
    {
      this.isFrozen := isFrozen;
      if affectGameTime {
        if isFrozen {
          pausePending := true;
        } else {
          timeScale := 1.0;
        }
      }
    }

    /** The pending pause coroutine resuming on the next tick. */
    method ResumeFreezeTimeRoutine()
      modifies this
      ensures State() == Rules.ResumeFreezeTimeRoutine(old(State()))
    {
      if pausePending {
        pausePending := false;
        timeScale := 0.0;
      }
    }

    method SetDirection(direction: Vec, frameCount: int)
      modifies this
      ensures State() == Rules.SetDirection(old(State()), direction, frameCount)
    {
      if direction != Zero && pickingUpObject != None {
        pickingUpObject := None;
        SetFrozen(false, true);
      }
      if isFrozen || isAttacking {
        return;
      }
      var pushed := IsBeingPushed();
      if pushed {
        movementDirection := pushDirection;
        return;
      }
      if frameCount == lastSetDirectionFrameCount {
        return;
      }
      movementDirection := direction;
      if direction != Zero {
        facingDirection := movementDirection;
        lastSetDirectionFrameCount := frameCount;
      }
    }

    method IsMoving() returns (moving: bool)
      ensures moving <==> !isFrozen && movementDirection != Zero
      ensures moving == Rules.IsMoving(State())
    {
      if isFrozen {
        return false;
      }
      moving := movementDirection != Zero;
    }

    method EquipWeapon(itemType: ItemType, db: ItemDatabase)
      modifies this
      ensures State() == Rules.EquipWeapon(old(State()), itemType, db)
    {
      equippedWeapon := Rules.EquipItem(itemType, SwordHand, hasWeaponParent, equippedWeapon, db);
    }

    method EquipShield(itemType: ItemType, db: ItemDatabase)
      modifies this
      ensures State() == Rules.EquipShield(old(State()), itemType, db)
    {
      equippedShield := Rules.EquipItem(itemType, ShieldHand, hasShieldParent, equippedShield, db);
    }

    method ShowItemPickup(itemType: ItemType, db: ItemDatabase, frameCount: int)
      modifies this
      ensures State() == Rules.ShowItemPickup(old(State()), itemType, db, frameCount)
    {
      if !hasPickupItemParent {
        return;
      }
      if itemType !in db {
        return;
      }
      SetDirection(Down, frameCount);
      SetFrozen(true, true);
      pickingUpObject := itemType;
    }

    method PushCharacter(pushDirection: Vec, time: real)
      modifies this
      ensures State() == Rules.PushCharacter(old(State()), pushDirection, time)
    {
      if isAttacking {
        attackFinishedNotices := attackFinishedNotices + 1;
      }
      this.pushDirection := pushDirection;
      pushTime := time;
    }

    method CanAttack() returns (can: bool)
      ensures can <==> !isAttacking && equippedWeapon != None && !(pushTime > 0.0)
      ensures can == Rules.CanAttack(State())
    {
      if isAttacking {
        return false;
      }
      if equippedWeapon == None {
        return false;
      }
      var pushed := IsBeingPushed();
      if pushed {
        return false;
      }
      return true;
    }

    method OnAttackStarted()
      modifies this
      ensures State() == old(State()).(isAttacking := true)
    {
      isAttacking := true;
    }

    method OnAttackFinished()
      modifies this
      ensures State() == old(State()).(isAttacking := false)
    {
      isAttacking := false;
    }
  }
}
