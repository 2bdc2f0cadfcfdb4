/**
  The character controller's state as a value, and one transition function
  per operation of the controller. The class in module CharacterMovement
  keeps the same state in fields. Each of its mutating methods, except the two
  attack callbacks, which set or clear one flag, is proved to move the fields
  exactly as the function of the same name moves the value.
 */
module CharacterRules {
  import opened EngineMath
  import opened Items

  /**
    Everything the controller stores. `speed` and the three `has...Parent`
    flags are configuration (public fields set in the editor; a parent is
    present when its transform is not null). `velocity` is the rigid body's
    velocity, written by UpdateMovement. `timeScale` is the engine's global
    time scale and `pausePending` records a started, not yet resumed, freeze
    coroutine. `attackFinishedNotices` counts the notifications sent to the
    animation listener when a push interrupts an attack.
   */
  datatype CharacterState = CharacterState(
    speed: real,
    hasWeaponParent: bool,
    hasShieldParent: bool,
    hasPickupItemParent: bool,
    movementDirection: Vec,
    facingDirection: Vec,
    isFrozen: bool,
    isAttacking: bool,
    pickingUpObject: ItemType,
    equippedWeapon: ItemType,
    equippedShield: ItemType,
    pushDirection: Vec,
    pushTime: real,
    lastSetDirectionFrameCount: int,
    velocity: Vec,
    timeScale: real,
    pausePending: bool,
    attackFinishedNotices: nat)

  /** The state of a freshly created character: every field at its default. */
  function Initial(speed: real, hasWeaponParent: bool, hasShieldParent: bool,
                   hasPickupItemParent: bool): (s: CharacterState)
    ensures s.speed == speed && s.hasWeaponParent == hasWeaponParent
    ensures s.hasShieldParent == hasShieldParent && s.hasPickupItemParent == hasPickupItemParent
    ensures !IsBeingPushed(s) && !IsMoving(s) && !CanAttack(s)
    ensures s.pickingUpObject == None && s.equippedShield == None
    ensures s.timeScale == 1.0 && !s.pausePending
    ensures !s.isFrozen && !s.isAttacking && s.equippedWeapon == None
    ensures s.lastSetDirectionFrameCount == 0 && s.movementDirection == Zero && s.facingDirection == Zero
    ensures s.pushTime == 0.0 && s.pushDirection == Zero && s.attackFinishedNotices == 0
    ensures s.velocity == Zero
  {
    CharacterState(speed, hasWeaponParent, hasShieldParent, hasPickupItemParent,
                   Zero, Zero, false, false, None, None, None, Zero, 0.0, 0,
                   Zero, 1.0, false, 0)
  }

  /** The character is being pushed while the push time is positive. */
  predicate IsBeingPushed(s: CharacterState) {
    s.pushTime > 0.0
  }

  /** The character is moving when it is not frozen and has a nonzero direction. */
  predicate IsMoving(s: CharacterState) {
    !s.isFrozen && s.movementDirection != Zero
  }

  /** An attack may start only when not attacking, armed, and not being pushed. */
  predicate CanAttack(s: CharacterState) {
    !s.isAttacking && s.equippedWeapon != None && !IsBeingPushed(s)
  }

  /** Per frame: the push time moves towards zero by the frame's elapsed time. */
  function UpdatePushTime(s: CharacterState, deltaTime: real): (r: CharacterState)
    ensures r == s.(pushTime := r.pushTime)
    ensures deltaTime >= 0.0 ==> Abs(r.pushTime) <= Abs(s.pushTime)
    ensures deltaTime >= 0.0 ==> Abs(s.pushTime - r.pushTime) <= deltaTime
    ensures deltaTime >= 0.0 ==> r.pushTime == 0.0 || Abs(s.pushTime - r.pushTime) == deltaTime
    // the timer never crosses zero
    ensures deltaTime >= 0.0 && s.pushTime >= 0.0 ==> r.pushTime >= 0.0
    ensures deltaTime >= 0.0 && s.pushTime <= 0.0 ==> r.pushTime <= 0.0
    ensures deltaTime >= 0.0 && s.pushTime >= 0.0 ==>
              r.pushTime == if s.pushTime - deltaTime >= 0.0 then s.pushTime - deltaTime else 0.0
    ensures deltaTime >= 0.0 && s.pushTime <= 0.0 ==>
              r.pushTime == if s.pushTime + deltaTime <= 0.0 then s.pushTime + deltaTime else 0.0
  {
    s.(pushTime := MoveTowards(s.pushTime, 0.0, deltaTime))
  }

  /**
    Per physics step: the velocity is zero while frozen or attacking (and the
    direction is then left as it is); otherwise a nonzero direction is
    normalised in place and the velocity is the push vector while pushed,
    else the direction scaled by the speed.
   */
  function UpdateMovement(s: CharacterState, normalize: Vec -> Vec): (r: CharacterState)
    ensures s.isFrozen || s.isAttacking ==> r == s.(velocity := Zero)
    ensures r == s.(movementDirection := r.movementDirection, velocity := r.velocity)
    ensures !s.isFrozen && !s.isAttacking ==>
              r.movementDirection == if s.movementDirection == Zero then Zero
                                     else normalize(s.movementDirection)
    ensures !s.isFrozen && !s.isAttacking && IsBeingPushed(s) ==> r.velocity == s.pushDirection
    ensures !s.isFrozen && !s.isAttacking && !IsBeingPushed(s) && s.movementDirection != Zero ==>
              r.velocity == Scale(normalize(s.movementDirection), s.speed)
    ensures !s.isFrozen && !s.isAttacking && !IsBeingPushed(s) && s.movementDirection == Zero ==>
              r.velocity == Zero
    ensures NonzeroPreserving(normalize) ==> (IsMoving(r) <==> IsMoving(s))
  {
    if s.isFrozen || s.isAttacking then
      s.(velocity := Zero)
    else
      var direction := if s.movementDirection != Zero then normalize(s.movementDirection)
                       else s.movementDirection;
      s.(movementDirection := direction,
         velocity := if IsBeingPushed(s) then s.pushDirection else Scale(direction, s.speed))
  }

  /**
    Sets the frozen flag. When game time is affected, freezing starts the
    one-tick pause coroutine and unfreezing restores the time scale to 1
    (a pause already pending is left pending).
   */
  function SetFrozen(s: CharacterState, isFrozen: bool, affectGameTime: bool): (r: CharacterState)
    ensures r == s.(isFrozen := isFrozen, timeScale := r.timeScale, pausePending := r.pausePending)
    ensures !affectGameTime ==> r == s.(isFrozen := isFrozen)
    ensures affectGameTime && isFrozen ==> r.pausePending && r.timeScale == s.timeScale
    ensures affectGameTime && !isFrozen ==> r.timeScale == 1.0 && r.pausePending == s.pausePending
  {
    if !affectGameTime then s.(isFrozen := isFrozen)
    else if isFrozen then s.(isFrozen := true, pausePending := true)
    else s.(isFrozen := false, timeScale := 1.0)
  }

  /** The pause coroutine resuming one tick later: it sets the time scale to 0. */
  function ResumeFreezeTimeRoutine(s: CharacterState): (r: CharacterState)
    ensures !s.pausePending ==> r == s
    ensures s.pausePending ==> r == s.(timeScale := 0.0, pausePending := false)
    ensures !r.pausePending
  {
    if s.pausePending then s.(timeScale := 0.0, pausePending := false) else s
  }

  /**
    The first step of SetDirection: a nonzero input while an item is being
    picked up cancels the pickup and unfreezes the character and game time.
   */
  function CancelPickupOnInput(s: CharacterState, direction: Vec): (r: CharacterState)
    ensures direction != Zero && s.pickingUpObject != None ==>
              r == s.(pickingUpObject := None, isFrozen := false, timeScale := 1.0)
    ensures direction == Zero || s.pickingUpObject == None ==> r == s
  {
    if direction != Zero && s.pickingUpObject != None then
      SetFrozen(s.(pickingUpObject := None), false, true)
    else s
  }

  /**
    Input handling for one call made in frame `frameCount`. After the pickup
    cancel step, input is ignored while frozen or attacking, replaced by the
    push vector while being pushed, and ignored when a nonzero direction was
    already accepted in this frame; otherwise it becomes the movement
    direction and, when nonzero, the facing direction, and the frame is
    recorded.
   */
  function SetDirection(s: CharacterState, direction: Vec, frameCount: int): (r: CharacterState)
    // only these fields can change; the push state in particular is kept
    ensures r == s.(movementDirection := r.movementDirection, facingDirection := r.facingDirection,
                    lastSetDirectionFrameCount := r.lastSetDirectionFrameCount,
                    pickingUpObject := r.pickingUpObject, isFrozen := r.isFrozen,
                    timeScale := r.timeScale)
    // the pickup cancel step, and nothing else, touches the pickup, the freeze and the time scale
    ensures direction != Zero && s.pickingUpObject != None ==>
              r.pickingUpObject == None && !r.isFrozen && r.timeScale == 1.0
    ensures direction == Zero || s.pickingUpObject == None ==>
              r.pickingUpObject == s.pickingUpObject && r.isFrozen == s.isFrozen &&
              r.timeScale == s.timeScale
    // frozen (after the cancel step) or attacking: no direction state changes
    ensures r.isFrozen || s.isAttacking ==>
              r.movementDirection == s.movementDirection && r.facingDirection == s.facingDirection &&
              r.lastSetDirectionFrameCount == s.lastSetDirectionFrameCount
    // being pushed: the direction is forced to the push vector
    ensures !r.isFrozen && !s.isAttacking && IsBeingPushed(s) ==>
              r.movementDirection == s.pushDirection && r.facingDirection == s.facingDirection &&
              r.lastSetDirectionFrameCount == s.lastSetDirectionFrameCount
    // a nonzero direction already accepted in this frame: input is ignored
    ensures frameCount == s.lastSetDirectionFrameCount ==>
              r.facingDirection == s.facingDirection &&
              r.lastSetDirectionFrameCount == s.lastSetDirectionFrameCount &&
              (r.movementDirection == s.movementDirection || r.movementDirection == s.pushDirection)
    ensures frameCount == s.lastSetDirectionFrameCount && !IsBeingPushed(s) ==>
              r.movementDirection == s.movementDirection
    // accepted input
    ensures !r.isFrozen && !s.isAttacking && !IsBeingPushed(s) &&
            frameCount != s.lastSetDirectionFrameCount ==>
              r.movementDirection == direction &&
              (direction != Zero ==> r.facingDirection == direction &&
                                     r.lastSetDirectionFrameCount == frameCount) &&
              (direction == Zero ==> r.facingDirection == s.facingDirection &&
                                     r.lastSetDirectionFrameCount == s.lastSetDirectionFrameCount)
    // facing and frame record change only on accepted nonzero input
    ensures r.facingDirection != s.facingDirection ==> direction != Zero && r.facingDirection == direction
    ensures r.lastSetDirectionFrameCount != s.lastSetDirectionFrameCount ==>
              direction != Zero && r.lastSetDirectionFrameCount == frameCount &&
              r.facingDirection == direction && r.movementDirection == direction
  {
    var c := CancelPickupOnInput(s, direction);
    if c.isFrozen || c.isAttacking then c
    else if IsBeingPushed(c) then c.(movementDirection := c.pushDirection)
    else if frameCount == c.lastSetDirectionFrameCount then c
    else if direction != Zero then
      c.(movementDirection := direction, facingDirection := direction,
         lastSetDirectionFrameCount := frameCount)
    else c.(movementDirection := direction)
  }

  /**
    The value an equipment slot holds after asking to equip `itemType` at
    `equipPosition`: unchanged unless the attach point is present, the item
    is in the database and its equip position is the requested one.
   */
  function EquipItem(itemType: ItemType, equipPosition: EquipPosition, hasItemParent: bool,
                     slot: ItemType, db: ItemDatabase): (r: ItemType)
    ensures hasItemParent && itemType in db && db[itemType].isEquipable == equipPosition ==>
              r == itemType
    ensures !hasItemParent || itemType !in db || db[itemType].isEquipable != equipPosition ==>
              r == slot
  {
    if !hasItemParent then slot
    else if itemType !in db then slot
    else if db[itemType].isEquipable != equipPosition then slot
    else itemType
  }

  /** Equips a sword-hand item into the weapon slot; nothing else changes. */
  function EquipWeapon(s: CharacterState, itemType: ItemType, db: ItemDatabase): (r: CharacterState)
    ensures r == s.(equippedWeapon := r.equippedWeapon)
    ensures r.equippedWeapon != s.equippedWeapon ==> r.equippedWeapon == itemType
    ensures r.equippedWeapon == (if s.hasWeaponParent && itemType in db &&
                                    db[itemType].isEquipable == SwordHand
                                 then itemType else s.equippedWeapon)
  {
    s.(equippedWeapon := EquipItem(itemType, SwordHand, s.hasWeaponParent, s.equippedWeapon, db))
  }

  /** Equips a shield-hand item into the shield slot; nothing else changes. */
  function EquipShield(s: CharacterState, itemType: ItemType, db: ItemDatabase): (r: CharacterState)
    ensures r == s.(equippedShield := r.equippedShield)
    ensures r.equippedShield != s.equippedShield ==> r.equippedShield == itemType
    ensures r.equippedShield == (if s.hasShieldParent && itemType in db &&
                                    db[itemType].isEquipable == ShieldHand
                                 then itemType else s.equippedShield)
  {
    s.(equippedShield := EquipItem(itemType, ShieldHand, s.hasShieldParent, s.equippedShield, db))
  }

  /**
    Shows an item being picked up: without an attach point or for an item
    not in the database nothing happens; otherwise the character is turned
    downward (through SetDirection, so subject to its gates), frozen with the
    game pause started, and the item is recorded.
   */
  function ShowItemPickup(s: CharacterState, itemType: ItemType, db: ItemDatabase,
                          frameCount: int): (r: CharacterState)
    ensures !s.hasPickupItemParent || itemType !in db ==> r == s
    ensures s.hasPickupItemParent && itemType in db ==>
              r.isFrozen && r.pausePending && r.pickingUpObject == itemType &&
              r.timeScale == (if s.pickingUpObject != None then 1.0 else s.timeScale)
    ensures s.hasPickupItemParent && itemType in db && !s.isAttacking &&
            !(s.isFrozen && s.pickingUpObject == None) && !IsBeingPushed(s) &&
            frameCount != s.lastSetDirectionFrameCount ==>
              r.facingDirection == Down && r.movementDirection == Down &&
              r.lastSetDirectionFrameCount == frameCount
    ensures r.lastSetDirectionFrameCount == s.lastSetDirectionFrameCount ||
            r.lastSetDirectionFrameCount == frameCount
    // the downward turn gated: facing and frame record are kept, and the
    // direction is kept or, while pushed, forced to the push vector
    ensures s.hasPickupItemParent && itemType in db &&
            (s.isAttacking || (s.isFrozen && s.pickingUpObject == None) || IsBeingPushed(s) ||
             frameCount == s.lastSetDirectionFrameCount) ==>
              r.facingDirection == s.facingDirection &&
              r.lastSetDirectionFrameCount == s.lastSetDirectionFrameCount
    ensures s.hasPickupItemParent && itemType in db && !s.isAttacking &&
            !(s.isFrozen && s.pickingUpObject == None) && IsBeingPushed(s) ==>
              r.movementDirection == s.pushDirection
    ensures s.hasPickupItemParent && itemType in db &&
            (s.isAttacking || (s.isFrozen && s.pickingUpObject == None) ||
             (!IsBeingPushed(s) && frameCount == s.lastSetDirectionFrameCount)) ==>
              r.movementDirection == s.movementDirection
    ensures r.facingDirection == s.facingDirection || r.facingDirection == Down
    // only the direction, the facing, the frame record, the freeze, the pickup,
    // the time scale and the pending pause can change
    ensures r == s.(movementDirection := r.movementDirection, facingDirection := r.facingDirection,
                    lastSetDirectionFrameCount := r.lastSetDirectionFrameCount,
                    isFrozen := r.isFrozen, pickingUpObject := r.pickingUpObject,
                    timeScale := r.timeScale, pausePending := r.pausePending)
    // equipment, push state, velocity and configuration are untouched
    ensures r.equippedWeapon == s.equippedWeapon && r.equippedShield == s.equippedShield
    ensures r.pushDirection == s.pushDirection && r.pushTime == s.pushTime
    ensures r.velocity == s.velocity && r.isAttacking == s.isAttacking
  {
    if !s.hasPickupItemParent then s
    else if itemType !in db then s
    else SetFrozen(SetDirection(s, Down, frameCount), true, true).(pickingUpObject := itemType)
  }

  /**
    Starts a push of `time` seconds along `pushDirection`, overwriting any
    push in progress. An attack in progress is reported to the animation
    listener (counted here); the attacking flag itself is not changed.
   */
  function PushCharacter(s: CharacterState, pushDirection: Vec, time: real): (r: CharacterState)
    ensures r == s.(pushDirection := pushDirection, pushTime := time,
                    attackFinishedNotices := r.attackFinishedNotices)
    ensures r.attackFinishedNotices == s.attackFinishedNotices + (if s.isAttacking then 1 else 0)
    ensures IsBeingPushed(r) <==> time > 0.0
    ensures time > 0.0 ==> !CanAttack(r)
  {
    s.(pushDirection := pushDirection, pushTime := time,
       attackFinishedNotices := if s.isAttacking then s.attackFinishedNotices + 1
                                else s.attackFinishedNotices)
  }
}
