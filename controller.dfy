/**
 * The aim-at-cursor player character controller: its control-state fields and
 * the methods that update them once per frame or once per hotkey use. Each
 * method returns the engine side effects it causes, in order, and is proved to
 * follow the matching rule of ControlRules.
 */
module PlayerController {
  import opened ControlTypes
  import opened EntitySearch
  import opened ControlRules

  class AimAtCursorPlayerCharacterController {
    var isLeftHandAttacking: bool
    var isSprinting: bool
    var isWalking: bool
    var attackPreventedWhileCursorOverUI: bool
    var hotkeyEquipWeaponSet: byte
    var buildingItemIndex: int

    /** The four per-frame control fields as one value. */
    function State(): ControlState
      reads this
    {
      ControlState(isLeftHandAttacking, isSprinting, isWalking, attackPreventedWhileCursorOverUI)
    }

    /** The fields the hotkey operations read and write. */
    function HotkeyFields(): HotkeyState
      reads this
    {
      HotkeyState(isLeftHandAttacking, hotkeyEquipWeaponSet, buildingItemIndex)
    }

    /** Every control flag starts false; the building index belongs to the base controller. */
    constructor (initialBuildingItemIndex: int)
      ensures State() == InitialState
      ensures hotkeyEquipWeaponSet == 0 && buildingItemIndex == initialBuildingItemIndex
    {
      isLeftHandAttacking, isSprinting, isWalking := false, false, false;
      attackPreventedWhileCursorOverUI := false;
      hotkeyEquipWeaponSet := 0;
      buildingItemIndex := initialBuildingItemIndex;
    }

    /** One frame of input handling. */
    method UpdateInput(input: FrameInput) returns (emitted: seq<Action>)
      modifies this`isLeftHandAttacking, this`isSprinting, this`isWalking, this`attackPreventedWhileCursorOverUI
      ensures State() == FrameStep(old(State()), input).state
      ensures emitted == FrameStep(old(State()), input).actions
      ensures old(!(isSprinting && isWalking)) ==> !(isSprinting && isWalking)
    {
      if input.focusOnInputField || input.isDead {
        emitted := [StopMovement];
        return;
      }
      emitted := [];
      if !input.constructing {
        emitted := HandleNearbyButtons(input);
      }
      // The look step's aim-position query takes the hand flag by reference.
      isLeftHandAttacking := input.aimLeftHandOut;
      var moved := UpdateWASDInput(input.wasd, input.constructing);
      emitted := emitted + moved;
    }

    /** The activate, pick-up, reload, exit-vehicle and weapon-set buttons, and the automatic reload. */
    method HandleNearbyButtons(input: FrameInput) returns (emitted: seq<Action>)
      ensures emitted == NearbyActions(input)
    {
      var activated: seq<Action> := [];
      if input.activateDown {
        var found := FindFirstReady(input.nearby.canActivate);
        if found.Some? {
          activated := [ActivateEntity(found.value)];
        }
      }
      var pickedUp: seq<Action> := [];
      if input.pickUpItemDown {
        var found := FindFirstReady(input.nearby.canPickupActivate);
        if found.Some? {
          pickedUp := [PickupActivateEntity(found.value)];
        }
      }
      var reloaded: seq<Action> := [];
      if input.reloadDown {
        reloaded := ReloadAmmo(input.ammo);
      }
      var exited: seq<Action> := if input.exitVehicleDown then [ExitVehicle] else [];
      var switched: seq<Action> := if input.switchEquipWeaponSetDown then [SwitchEquipWeaponSet] else [];
      var autoReloaded: seq<Action> := [];
      if input.ammo.rightEmpty || input.ammo.leftEmpty {
        autoReloaded := ReloadAmmo(input.ammo);
      }
      emitted := activated + pickedUp + (reloaded + exited + switched + autoReloaded);
    }

    /** Fire buttons, swimming, sprint/walk toggles and the extra movement state. */
    method UpdateWASDInput(input: WASDInput, constructing: bool) returns (emitted: seq<Action>)
      modifies this`isLeftHandAttacking, this`isSprinting, this`isWalking, this`attackPreventedWhileCursorOverUI
      ensures State() == WASDStep(old(State()), input, constructing).state
      ensures emitted == WASDStep(old(State()), input, constructing).actions
    {
      emitted := if input.moving then [HideNpcDialog] else [];
      var fired := HandleFireInput(input, constructing);
      var tail := HandleMovementInput(input);
      emitted := emitted + fired + tail;
    }

    /** The attack part of `UpdateWASDInput`: the cursor-over-UI latch and the fire-type dispatch. */
    method HandleFireInput(input: WASDInput, constructing: bool) returns (emitted: seq<Action>)
      modifies this`isLeftHandAttacking, this`attackPreventedWhileCursorOverUI
      ensures isLeftHandAttacking == FireStep(old(State()), input, constructing).isLeftHandAttacking
      ensures attackPreventedWhileCursorOverUI == FireStep(old(State()), input, constructing).latched
      ensures emitted == FireStep(old(State()), input, constructing).actions
    {
      emitted := [];
      var fireType := SelectFireType(isLeftHandAttacking, input.equipment);
      if input.usingHotkey {
        return;
      }
      if input.fire1.down || input.attack.down {
        if input.pointerOverUI {
          attackPreventedWhileCursorOverUI := true;
        }
        if !attackPreventedWhileCursorOverUI && fireType == FireOnRelease {
          emitted := WeaponCharge(constructing, input.chargeReply);
        }
      } else if input.fire1.held || input.attack.held {
        if !attackPreventedWhileCursorOverUI && fireType != FireOnRelease {
          emitted := Attack(constructing, input.attackReply);
        }
      } else if input.fire1.up || input.attack.up {
        if !attackPreventedWhileCursorOverUI && fireType == FireOnRelease {
          emitted := Attack(constructing, input.attackReply);
        }
        if attackPreventedWhileCursorOverUI && !input.pointerOverUI {
          attackPreventedWhileCursorOverUI := false;
        }
      }
    }

    /** The movement part of `UpdateWASDInput`: swimming, sprint/walk toggles, jump and the extra movement state. */
    method HandleMovementInput(input: WASDInput) returns (emitted: seq<Action>)
      modifies this`isSprinting, this`isWalking
      ensures isSprinting == GaitAfter(old(isSprinting), old(isWalking), input).sprinting
      ensures isWalking == GaitAfter(old(isSprinting), old(isWalking), input).walking
      ensures emitted == [KeyMovement(MovementFlagsOf(input)), SetExtraMovementState(ExtraStateOf(isSprinting, isWalking))]
    {
      var flags := MovementFlags(false, false, false);
      if input.underWater {
        if input.swimUpHeld {
          flags := flags.(up := true);
        } else if input.swimDownHeld {
          flags := flags.(down := true);
        }
        isSprinting := false;
        isWalking := false;
      } else if input.grounded {
        if input.sprintDown {
          isSprinting := !isSprinting;
          isWalking := false;
        } else if input.walkDown {
          isWalking := !isWalking;
          isSprinting := false;
        }
        if input.jumpDown {
          flags := flags.(jump := true);
        }
      }
      emitted := [KeyMovement(flags)];

      if isSprinting {
        emitted := emitted + [SetExtraMovementState(IsSprinting)];
      } else if isWalking {
        emitted := emitted + [SetExtraMovementState(IsWalking)];
      } else {
        emitted := emitted + [SetExtraMovementState(NoExtraMovement)];
      }
    }

    /** Attack with the current hand unless constructing; switch hands when the entity reports success. */
    method Attack(constructing: bool, reply: EntityReply) returns (emitted: seq<Action>)
      modifies this`isLeftHandAttacking
      ensures isLeftHandAttacking == WeaponCall(AttackCommand, old(isLeftHandAttacking), constructing, reply).isLeftHandAttacking
      ensures emitted == WeaponCall(AttackCommand, old(isLeftHandAttacking), constructing, reply).actions
    {
      if constructing {
        return [];
      }
      emitted := [EntityAttack(isLeftHandAttacking)];
      isLeftHandAttacking := reply.isLeftHandOut;
      if reply.succeeded {
        isLeftHandAttacking := !isLeftHandAttacking;
      }
    }

    /** Start charging with the current hand unless constructing; switch hands when the entity reports success. */
    method WeaponCharge(constructing: bool, reply: EntityReply) returns (emitted: seq<Action>)
      modifies this`isLeftHandAttacking
      ensures isLeftHandAttacking == WeaponCall(ChargeCommand, old(isLeftHandAttacking), constructing, reply).isLeftHandAttacking
      ensures emitted == WeaponCall(ChargeCommand, old(isLeftHandAttacking), constructing, reply).actions
    {
      if constructing {
        return [];
      }
      emitted := [EntityStartCharge(isLeftHandAttacking)];
      isLeftHandAttacking := reply.isLeftHandOut;
      if reply.succeeded {
        isLeftHandAttacking := !isLeftHandAttacking;
      }
    }

    /** Reload the right hand if it is not full, else the left hand if it is not full. */
    method ReloadAmmo(ammo: AmmoState) returns (emitted: seq<Action>)
      ensures emitted == ReloadActions(ammo)
    {
      if !ammo.rightFull {
        emitted := [ReloadWeapon(RightHand)];
      } else if !ammo.leftFull {
        emitted := [ReloadWeapon(LeftHand)];
      } else {
        emitted := [];
      }
    }

    method ShouldShowActivateButtons(nearby: NearbyEntities) returns (show: bool)
      ensures show <==> exists i :: 0 <= i < |nearby.canActivate| && nearby.canActivate[i]
      ensures show <==> ActivateActions(nearby.canActivate) != []
    {
      show := AnyReady(nearby.canActivate);
    }

    method ShouldShowHoldActivateButtons(nearby: NearbyEntities) returns (show: bool)
      ensures show <==> exists i :: 0 <= i < |nearby.canHoldActivate| && nearby.canHoldActivate[i]
    {
      show := AnyReady(nearby.canHoldActivate);
    }

    method ShouldShowPickUpButtons(nearby: NearbyEntities) returns (show: bool)
      ensures show <==> exists i :: 0 <= i < |nearby.canPickupActivate| && nearby.canPickupActivate[i]
      ensures show <==> PickupActions(nearby.canPickupActivate) != []
    {
      show := AnyReady(nearby.canPickupActivate);
    }

    /** Clear the queued skill and dispatch the hotkey by its type. */
    method UseHotkey(input: HotkeyInput) returns (beingUsed: bool, emitted: seq<Action>)
      modifies this`isLeftHandAttacking, this`hotkeyEquipWeaponSet, this`buildingItemIndex
      ensures HotkeyFields() == HotkeyUse(old(HotkeyFields()), input).state
      ensures beingUsed == HotkeyUse(old(HotkeyFields()), input).used
      ensures emitted == HotkeyUse(old(HotkeyFields()), input).actions
    {
      var used: seq<Action>;
      match input.kind {
        case SkillHotkey =>
          beingUsed, used := UseSkill(input.skill, input.skillUseSucceeded);
        case ItemHotkey =>
          hotkeyEquipWeaponSet := input.equipWeaponSet;
          beingUsed, used := UseItem(input);
        case GuildSkillHotkey =>
          beingUsed, used := UseGuildSkill(input);
        case OtherHotkey =>
          beingUsed, used := false, [];
      }
      emitted := [ClearQueueUsingSkill] + used;
    }

    /** Use a guild skill: nothing outside a guild, otherwise the server command's answer. */
    method UseGuildSkill(input: HotkeyInput) returns (used: bool, emitted: seq<Action>)
      ensures used ==> input.joinedGuild && input.guildSkillAccepted
      ensures used == GuildSkillUse(HotkeyFields(), input).used
      ensures emitted == GuildSkillUse(HotkeyFields(), input).actions
    {
      if !input.joinedGuild {
        return false, [];
      }
      return input.guildSkillAccepted, [EntityUseGuildSkill];
    }

    /** Use a skill with the current hand; switch hands, and report use, only for a used attack skill. */
    method UseSkill(lookup: SkillLookup, succeeded: bool) returns (used: bool, emitted: seq<Action>)
      modifies this`isLeftHandAttacking
      ensures HotkeyFields() == SkillUse(old(HotkeyFields()), lookup, succeeded).state
      ensures used == SkillUse(old(HotkeyFields()), lookup, succeeded).used
      ensures emitted == SkillUse(old(HotkeyFields()), lookup, succeeded).actions
    {
      if lookup.SkillUnavailable? {
        return false, [];
      }
      var isAttackSkill := lookup.isAttack;
      emitted := [EntityUseSkill(isLeftHandAttacking)];
      if succeeded && isAttackSkill {
        isLeftHandAttacking := !isLeftHandAttacking;
        return true, emitted;
      }
      return false, emitted;
    }

    /** Use an item hotkey once its item has been looked up. */
    method UseItem(input: HotkeyInput) returns (used: bool, emitted: seq<Action>)
      modifies this`isLeftHandAttacking, this`buildingItemIndex
      ensures HotkeyFields() == ItemUse(old(HotkeyFields()), input).state
      ensures used == ItemUse(old(HotkeyFields()), input).used
      ensures emitted == ItemUse(old(HotkeyFields()), input).actions
    {
      if input.item.EquippedItem? {
        return true, [UnEquipItem];
      }
      var itemIndex := input.item.index;
      if itemIndex < 0 {
        return false, [];
      }
      if input.item.item.None? {
        return false, [];
      }
      var item := input.item.item.value;
      if item.isEquipment {
        return true, [EquipItem(itemIndex, hotkeyEquipWeaponSet)];
      } else if item.isSkill {
        var isAttackSkill := item.skillIsAttack;
        emitted := [EntityUseSkillItem(itemIndex, isLeftHandAttacking)];
        if input.skillItemUseSucceeded && isAttackSkill {
          isLeftHandAttacking := !isLeftHandAttacking;
          return true, emitted;
        }
        return false, emitted;
      } else if item.isBuilding {
        buildingItemIndex := itemIndex;
        return true, [ShowConstructBuildingDialog];
      } else if item.isUsable {
        return input.useItemAccepted, [EntityUseItem(itemIndex)];
      }
      return false, [];
    }
  }
}
