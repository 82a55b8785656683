/**
 * The per-frame control rules of the aim-at-cursor controller, as functions of
 * the control state before the frame and of what the engine reports during it.
 * The controller class implements them step by step; the lemmas in
 * ControlProperties say what they guarantee.
 */
module ControlRules {
  import opened ControlTypes
  import opened EntitySearch

  // ---------------------------------------------------------------------------
  // Fire input
  // ---------------------------------------------------------------------------

  /** Which of the exclusive fire branches a frame takes (press, else hold, else release). */
  datatype FirePhase = Pressed | Held | Released | Idle

  /** The weapon call a fire branch makes. */
  datatype WeaponCommand = NoCommand | ChargeCommand | AttackCommand

  /** The weapon of the hand that attacks next. */
  function AttackingHandWeapon(isLeftHandAttacking: bool, e: Equipment): Option<FireType> {
    if isLeftHandAttacking then e.leftHandWeapon else e.rightHandWeapon
  }

  /** The fire type, tested left hand first, then right hand, then the default weapon. */
  function SelectFireType(isLeftHandAttacking: bool, e: Equipment): FireType {
    if isLeftHandAttacking && e.leftHandWeapon.Some? then e.leftHandWeapon.value
    else if !isLeftHandAttacking && e.rightHandWeapon.Some? then e.rightHandWeapon.value
    else e.defaultWeapon
  }

  /** Either of the two fire buttons (Fire1, Attack) counts; down beats held beats up. */
  function FirePhaseOf(fire1: ButtonState, attack: ButtonState): FirePhase {
    if fire1.down || attack.down then Pressed
    else if fire1.held || attack.held then Held
    else if fire1.up || attack.up then Released
    else Idle
  }

  /** Repeat-fire weapons attack while the button is held; fire-on-release weapons charge on press and attack on release. */
  function WeaponCommandFor(fireType: FireType, phase: FirePhase): WeaponCommand {
    match phase
    case Pressed => if fireType == FireOnRelease then ChargeCommand else NoCommand
    case Held => if fireType == FireOnRelease then NoCommand else AttackCommand
    case Released => if fireType == FireOnRelease then AttackCommand else NoCommand
    case Idle => NoCommand
  }

  /**
   * Whether the latch blocks the weapon call of this phase: on a press the
   * latch is tested after the pointer may have set it, on a release before it
   * may be cleared.
   */
  predicate WeaponCallBlocked(latched: bool, phase: FirePhase, pointerOverUI: bool) {
    if phase == Pressed then latched || pointerOverUI else latched
  }

  /** The latch after the fire branch: set by a press over UI, cleared by a release away from UI. */
  function LatchAfter(latched: bool, phase: FirePhase, pointerOverUI: bool): bool {
    match phase
    case Pressed => latched || pointerOverUI
    case Released => latched && pointerOverUI
    case _ => latched
  }

  /** The hand flag after a weapon call: the callee's value, negated when the call succeeded. */
  function HandAfterReply(reply: EntityReply): bool {
    if reply.succeeded then !reply.isLeftHandOut else reply.isLeftHandOut
  }

  datatype HandStep = HandStep(isLeftHandAttacking: bool, actions: seq<Action>)

  /** Attack / WeaponCharge: nothing while constructing, otherwise call the entity and alternate on success. */
  function WeaponCall(command: WeaponCommand, isLeftHandAttacking: bool, constructing: bool, reply: EntityReply): HandStep {
    if command == NoCommand || constructing then HandStep(isLeftHandAttacking, [])
    else
      var call := if command == AttackCommand then EntityAttack(isLeftHandAttacking) else EntityStartCharge(isLeftHandAttacking);
      HandStep(HandAfterReply(reply), [call])
  }

  datatype FireStepResult = FireStepResult(latched: bool, isLeftHandAttacking: bool, actions: seq<Action>)

  /** The fire part of `UpdateWASDInput`. */
  function FireStep(s: ControlState, input: WASDInput, constructing: bool): FireStepResult {
    if input.usingHotkey then
      FireStepResult(s.attackPreventedWhileCursorOverUI, s.isLeftHandAttacking, [])
    else
      var phase := FirePhaseOf(input.fire1, input.attack);
      var fireType := SelectFireType(s.isLeftHandAttacking, input.equipment);
      var command :=
        if WeaponCallBlocked(s.attackPreventedWhileCursorOverUI, phase, input.pointerOverUI) then NoCommand
        else WeaponCommandFor(fireType, phase);
      var reply := if command == ChargeCommand then input.chargeReply else input.attackReply;
      var hand := WeaponCall(command, s.isLeftHandAttacking, constructing, reply);
      FireStepResult(
        LatchAfter(s.attackPreventedWhileCursorOverUI, phase, input.pointerOverUI),
        hand.isLeftHandAttacking,
        hand.actions)
  }

  // ---------------------------------------------------------------------------
  // Movement
  // ---------------------------------------------------------------------------

  datatype Gait = Gait(sprinting: bool, walking: bool)

  /** Underwater clears both; on the ground Sprint toggles sprinting, else Walk toggles walking, each clearing the other. */
  function GaitAfter(sprinting: bool, walking: bool, input: WASDInput): Gait {
    if input.underWater then Gait(false, false)
    else if input.grounded && input.sprintDown then Gait(!sprinting, false)
    else if input.grounded && input.walkDown then Gait(false, !walking)
    else Gait(sprinting, walking)
  }

  /** Underwater: up if SwimUp is held, else down if SwimDown is; on the ground: jump on Jump. */
  function MovementFlagsOf(input: WASDInput): MovementFlags {
    if input.underWater then MovementFlags(input.swimUpHeld, !input.swimUpHeld && input.swimDownHeld, false)
    else if input.grounded then MovementFlags(false, false, input.jumpDown)
    else MovementFlags(false, false, false)
  }

  /** Sprinting takes priority over walking. */
  function ExtraStateOf(sprinting: bool, walking: bool): ExtraMovementState {
    if sprinting then IsSprinting
    else if walking then IsWalking
    else NoExtraMovement
  }

  datatype Step = Step(state: ControlState, actions: seq<Action>)

  /** One run of `UpdateWASDInput`. */
  function WASDStep(s: ControlState, input: WASDInput, constructing: bool): Step {
    var fire := FireStep(s, input, constructing);
    var gait := GaitAfter(s.isSprinting, s.isWalking, input);
    Step(
      ControlState(fire.isLeftHandAttacking, gait.sprinting, gait.walking, fire.latched),
      (if input.moving then [HideNpcDialog] else [])
      + fire.actions
      + [KeyMovement(MovementFlagsOf(input)), SetExtraMovementState(ExtraStateOf(gait.sprinting, gait.walking))])
  }

  // ---------------------------------------------------------------------------
  // Nearby entities, reload and the whole frame
  // ---------------------------------------------------------------------------

  /** ReloadAmmo: the right hand if it is not full, else the left hand if it is not full. */
  function ReloadChoice(ammo: AmmoState): (r: Option<Hand>)
    ensures r.Some? ==> (if r.value == RightHand then !ammo.rightFull else !ammo.leftFull)
    ensures r == Some(LeftHand) ==> ammo.rightFull
    ensures r == None <==> ammo.rightFull && ammo.leftFull
  {
    if !ammo.rightFull then Some(RightHand)
    else if !ammo.leftFull then Some(LeftHand)
    else None
  }

  function ReloadActions(ammo: AmmoState): seq<Action> {
    match ReloadChoice(ammo)
    case Some(hand) => [ReloadWeapon(hand)]
    case None => []
  }

  function ActivateActions(ready: seq<bool>): seq<Action> {
    match FirstReady(ready)
    case Some(i) => [ActivateEntity(i)]
    case None => []
  }

  function PickupActions(ready: seq<bool>): seq<Action> {
    match FirstReady(ready)
    case Some(i) => [PickupActivateEntity(i)]
    case None => []
  }

  /** The button handling of `UpdateInput` that is skipped while constructing. */
  function NearbyActions(input: FrameInput): seq<Action> {
    (if input.activateDown then ActivateActions(input.nearby.canActivate) else [])
    + (if input.pickUpItemDown then PickupActions(input.nearby.canPickupActivate) else [])
    + OtherButtonActions(input)
  }

  /** The reload, exit-vehicle and weapon-set buttons, and the automatic reload when a hand is empty. */
  function OtherButtonActions(input: FrameInput): seq<Action> {
    (if input.reloadDown then ReloadActions(input.ammo) else [])
    + (if input.exitVehicleDown then [ExitVehicle] else [])
    + (if input.switchEquipWeaponSetDown then [SwitchEquipWeaponSet] else [])
    + (if input.ammo.rightEmpty || input.ammo.leftEmpty then ReloadActions(input.ammo) else [])
  }

  /** One run of `UpdateInput`, the look step reduced to what it does to the hand flag. */
  function FrameStep(s: ControlState, input: FrameInput): Step {
    if input.focusOnInputField || input.isDead then Step(s, [StopMovement])
    else
      var wasd := WASDStep(s.(isLeftHandAttacking := input.aimLeftHandOut), input.wasd, input.constructing);
      Step(wasd.state, (if input.constructing then [] else NearbyActions(input)) + wasd.actions)
  }

  /** The state after a sequence of frames. */
  function Run(s: ControlState, frames: seq<FrameInput>): ControlState
    decreases |frames|
  {
    if frames == [] then s else Run(FrameStep(s, frames[0]).state, frames[1..])
  }

  /** Everything emitted during a sequence of frames. */
  function RunActions(s: ControlState, frames: seq<FrameInput>): seq<Action>
    decreases |frames|
  {
    if frames == [] then []
    else FrameStep(s, frames[0]).actions + RunActions(FrameStep(s, frames[0]).state, frames[1..])
  }

  /** The weapon calls among a sequence of actions, in order. */
  function WeaponCalls(actions: seq<Action>): seq<Action> {
    if actions == [] then []
    else (if IsWeaponCall(actions[0]) then [actions[0]] else []) + WeaponCalls(actions[1..])
  }

  // ---------------------------------------------------------------------------
  // Hotkeys
  // ---------------------------------------------------------------------------

  datatype HotkeyStep = HotkeyStep(used: bool, state: HotkeyState, actions: seq<Action>)

  /** UseSkill: report use, and alternate hands, only when an attack skill was used. */
  function SkillUse(s: HotkeyState, lookup: SkillLookup, succeeded: bool): HotkeyStep {
    match lookup
    case SkillUnavailable => HotkeyStep(false, s, [])
    case SkillAvailable(isAttack) =>
      var flip := succeeded && isAttack;
      HotkeyStep(
        flip,
        s.(isLeftHandAttacking := s.isLeftHandAttacking != flip),
        [EntityUseSkill(s.isLeftHandAttacking)])
  }

  /** UseItem after its lookup: equipment, then skill, then building, then usable items. */
  function ItemUse(s: HotkeyState, input: HotkeyInput): HotkeyStep {
    match input.item
    case EquippedItem => HotkeyStep(true, s, [UnEquipItem])
    case InventoryItem(index, item) =>
      if index < 0 || item.None? then HotkeyStep(false, s, [])
      else if item.value.isEquipment then
        HotkeyStep(true, s, [EquipItem(index, s.hotkeyEquipWeaponSet)])
      else if item.value.isSkill then
        var flip := input.skillItemUseSucceeded && item.value.skillIsAttack;
        HotkeyStep(
          flip,
          s.(isLeftHandAttacking := s.isLeftHandAttacking != flip),
          [EntityUseSkillItem(index, s.isLeftHandAttacking)])
      else if item.value.isBuilding then
        HotkeyStep(true, s.(buildingItemIndex := index), [ShowConstructBuildingDialog])
      else if item.value.isUsable then
        HotkeyStep(input.useItemAccepted, s, [EntityUseItem(index)])
      else HotkeyStep(false, s, [])
  }

  /** UseGuildSkill: nothing outside a guild, otherwise the server command's answer. */
  function GuildSkillUse(s: HotkeyState, input: HotkeyInput): HotkeyStep {
    if !input.joinedGuild then HotkeyStep(false, s, [])
    else HotkeyStep(input.guildSkillAccepted, s, [EntityUseGuildSkill])
  }

  /** UseHotkey: clear the queued skill, then dispatch on the hotkey type. */
  function HotkeyUse(s: HotkeyState, input: HotkeyInput): HotkeyStep {
    var r :=
      match input.kind
      case SkillHotkey => SkillUse(s, input.skill, input.skillUseSucceeded)
      case ItemHotkey => ItemUse(s.(hotkeyEquipWeaponSet := input.equipWeaponSet), input)
      case GuildSkillHotkey => GuildSkillUse(s, input)
      case OtherHotkey => HotkeyStep(false, s, []);
    HotkeyStep(r.used, r.state, [ClearQueueUsingSkill] + r.actions)
  }
}
