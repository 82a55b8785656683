/**
 * Values exchanged between the aim-at-cursor player controller and its engine.
 *
 * Every engine query the controller makes during a frame (button states, the
 * pointer-over-UI test, movement-state bits, the replies of the character
 * entity) is a field of an input record, and every engine side effect it
 * causes is an `Action` value that the model emits in call order.
 */
module ControlTypes {

  datatype Option<+T> = None | Some(value: T) {
    function GetOr(default: T): T {
      match this
      case Some(v) => v
      case None => default
    }
  }

  /** An unsigned 8-bit value, as the weapon-set numbers are. */
  newtype byte = x: int | 0 <= x < 256

  /** How a weapon turns the fire button into attacks. */
  datatype FireType = SingleFire | Automatic | FireOnRelease

  datatype Hand = RightHand | LeftHand

  /** The sprint/walk modifier sent to the character every frame. */
  datatype ExtraMovementState = NoExtraMovement | IsSprinting | IsWalking

  /** The movement-state bits this controller adds by itself (the direction bits come from a library call). */
  datatype MovementFlags = MovementFlags(up: bool, down: bool, jump: bool)

  /** What the input manager reports for one button in one frame. */
  datatype ButtonState = ButtonState(down: bool, held: bool, up: bool)

  /**
   * The reply of the character entity to `Attack(ref isLeftHand)` or
   * `StartCharge(ref isLeftHand)`: whether it succeeded, and the value it left
   * in the by-reference hand argument.
   */
  datatype EntityReply = EntityReply(succeeded: bool, isLeftHandOut: bool)

  /** The fire types of the equipped weapons; `None` is an empty hand. */
  datatype Equipment = Equipment(
    leftHandWeapon: Option<FireType>,
    rightHandWeapon: Option<FireType>,
    defaultWeapon: FireType)

  /** Everything `UpdateWASDInput` asks the engine during one frame. */
  datatype WASDInput = WASDInput(
    moving: bool,              // the move direction is non-zero
    equipment: Equipment,
    usingHotkey: bool,         // a hotkey is being dragged or aimed in the hotkey UI
    fire1: ButtonState,
    attack: ButtonState,
    pointerOverUI: bool,
    attackReply: EntityReply,  // reply to Attack, if it is called this frame
    chargeReply: EntityReply,  // reply to StartCharge, if it is called this frame
    underWater: bool,
    grounded: bool,
    swimUpHeld: bool,
    swimDownHeld: bool,
    sprintDown: bool,
    walkDown: bool,
    jumpDown: bool)

  datatype AmmoState = AmmoState(rightFull: bool, leftFull: bool, rightEmpty: bool, leftEmpty: bool)

  /**
   * The two nearby-entity detectors, each list in detector order and each
   * entry the answer of that entity's readiness query (CanActivate,
   * CanHoldActivate, CanPickupActivate).
   */
  datatype NearbyEntities = NearbyEntities(
    canActivate: seq<bool>,
    canHoldActivate: seq<bool>,
    canPickupActivate: seq<bool>)

  /** Everything `UpdateInput` asks the engine during one frame. */
  datatype FrameInput = FrameInput(
    focusOnInputField: bool,
    isDead: bool,
    constructing: bool,        // a building is being placed
    activateDown: bool,
    pickUpItemDown: bool,
    reloadDown: bool,
    exitVehicleDown: bool,
    switchEquipWeaponSetDown: bool,
    nearby: NearbyEntities,
    ammo: AmmoState,
    aimLeftHandOut: bool,      // the hand flag as the aim-position query of the look step leaves it
    wasd: WASDInput)

  /** The four control-state fields of the controller. */
  datatype ControlState = ControlState(
    isLeftHandAttacking: bool,
    isSprinting: bool,
    isWalking: bool,
    attackPreventedWhileCursorOverUI: bool)

  const InitialState := ControlState(false, false, false, false)

  /** The hotkey type; the enum is declared elsewhere and may hold values the controller does not handle. */
  datatype HotkeyType = SkillHotkey | ItemHotkey | GuildSkillHotkey | OtherHotkey

  /** The outcome of looking up a skill hotkey's skill in the game data and in the character's skills. */
  datatype SkillLookup = SkillUnavailable | SkillAvailable(isAttack: bool)

  /** What kind of item a hotkey names; the checks are made in this field order. */
  datatype ItemKind = ItemKind(
    isEquipment: bool,
    isSkill: bool,
    skillIsAttack: bool,
    isBuilding: bool,
    isUsable: bool)

  /**
   * The outcome of looking up an item hotkey: either the hotkey names an
   * equipped item, or an inventory index (negative when absent) and the item
   * found there, if any.
   */
  datatype ItemLookup = EquippedItem | InventoryItem(index: int, item: Option<ItemKind>)

  /** Everything `UseHotkey` asks the engine for one hotkey use. */
  datatype HotkeyInput = HotkeyInput(
    kind: HotkeyType,
    skill: SkillLookup,
    skillUseSucceeded: bool,
    item: ItemLookup,
    skillItemUseSucceeded: bool,
    useItemAccepted: bool,
    equipWeaponSet: byte,
    joinedGuild: bool,
    guildSkillAccepted: bool)

  /** The fields the hotkey operations read and write. */
  datatype HotkeyState = HotkeyState(
    isLeftHandAttacking: bool,
    hotkeyEquipWeaponSet: byte,
    buildingItemIndex: int)

  /** The engine side effects, in the order the controller causes them. */
  datatype Action =
    | StopMovement                                  // key movement with zero direction and no state
    | ActivateEntity(position: nat)
    | PickupActivateEntity(position: nat)
    | ReloadWeapon(hand: Hand)
    | ExitVehicle
    | SwitchEquipWeaponSet                          // request the next weapon set
    | HideNpcDialog
    | EntityAttack(isLeftHand: bool)                // target the selected entity, then attack
    | EntityStartCharge(isLeftHand: bool)
    | KeyMovement(flags: MovementFlags)
    | SetExtraMovementState(state: ExtraMovementState)
    | ClearQueueUsingSkill
    | EntityUseSkill(isLeftHand: bool)
    | UnEquipItem
    | EquipItem(index: int, equipWeaponSet: byte)
    | EntityUseSkillItem(index: int, isLeftHand: bool)
    | ShowConstructBuildingDialog
    | EntityUseItem(index: int)
    | EntityUseGuildSkill

  predicate IsWeaponCall(a: Action) {
    a.EntityAttack? || a.EntityStartCharge?
  }
}
