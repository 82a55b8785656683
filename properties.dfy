/**
 * What the control rules guarantee: sprint and walk exclusion, the swim and
 * extra-movement priorities, the cursor-over-UI attack latch, the fire-type
 * dispatch, hand alternation, first-match activation and the hotkey dispatch.
 */
module ControlProperties {
  import opened ControlTypes
  import opened EntitySearch
  import opened ControlRules

  // ---------------------------------------------------------------------------
  // Weapon calls in a sequence of actions
  // ---------------------------------------------------------------------------

  lemma {:induction false} WeaponCallsAppend(a: seq<Action>, b: seq<Action>)
    ensures WeaponCalls(a + b) == WeaponCalls(a) + WeaponCalls(b)
    decreases |a|
  {
    if a == [] {
      assert a + b == b;
    } else {
      assert (a + b)[1..] == a[1..] + b;
      WeaponCallsAppend(a[1..], b);
    }
  }

  lemma WeaponCallsOfCalls(actions: seq<Action>)
    requires forall k :: 0 <= k < |actions| ==> IsWeaponCall(actions[k])
    ensures WeaponCalls(actions) == actions
  {
    if actions != [] {
      WeaponCallsOfCalls(actions[1..]);
    }
  }

  lemma {:induction false} WeaponCallsOfNoCalls(actions: seq<Action>)
    requires forall a :: a in actions ==> !IsWeaponCall(a)
    ensures WeaponCalls(actions) == []
    decreases |actions|
  {
    if actions != [] {
      assert actions[0] in actions;
      assert forall a :: a in actions[1..] ==> a in actions;
      WeaponCallsOfNoCalls(actions[1..]);
    }
  }

  /** The frame's button handling outside the fire branch never attacks or charges. */
  lemma NearbyMakesNoWeaponCall(input: FrameInput)
    ensures WeaponCalls(NearbyActions(input)) == []
  {
    var activated := if input.activateDown then ActivateActions(input.nearby.canActivate) else [];
    var pickedUp := if input.pickUpItemDown then PickupActions(input.nearby.canPickupActivate) else [];
    var reloaded := if input.reloadDown then ReloadActions(input.ammo) else [];
    var exited := if input.exitVehicleDown then [ExitVehicle] else [];
    var switched := if input.switchEquipWeaponSetDown then [SwitchEquipWeaponSet] else [];
    var autoReloaded := if input.ammo.rightEmpty || input.ammo.leftEmpty then ReloadActions(input.ammo) else [];
    WeaponCallsOfNoCalls(activated);
    WeaponCallsOfNoCalls(pickedUp);
    WeaponCallsOfNoCalls(reloaded);
    WeaponCallsOfNoCalls(exited);
    WeaponCallsOfNoCalls(switched);
    WeaponCallsOfNoCalls(autoReloaded);
    WeaponCallsAppend(reloaded, exited);
    WeaponCallsAppend(reloaded + exited, switched);
    WeaponCallsAppend(reloaded + exited + switched, autoReloaded);
    WeaponCallsAppend(activated, pickedUp);
    WeaponCallsAppend(activated + pickedUp, OtherButtonActions(input));
  }

  /** The weapon calls of `UpdateWASDInput` are exactly those of its fire branch. */
  lemma WASDWeaponCalls(s: ControlState, input: WASDInput, constructing: bool)
    ensures WeaponCalls(WASDStep(s, input, constructing).actions) == FireStep(s, input, constructing).actions
  {
    var fire := FireStep(s, input, constructing);
    var gait := GaitAfter(s.isSprinting, s.isWalking, input);
    var dialog: seq<Action> := if input.moving then [HideNpcDialog] else [];
    var trailer := [KeyMovement(MovementFlagsOf(input)), SetExtraMovementState(ExtraStateOf(gait.sprinting, gait.walking))];
    assert WASDStep(s, input, constructing).actions == dialog + fire.actions + trailer;
    WeaponCallsOfNoCalls(dialog);
    WeaponCallsOfNoCalls(trailer);
    WeaponCallsOfCalls(fire.actions);
    WeaponCallsAppend(dialog, fire.actions);
    WeaponCallsAppend(dialog + fire.actions, trailer);
  }

  /** The weapon calls of a frame are exactly those of its fire branch. */
  lemma FrameWeaponCalls(s: ControlState, input: FrameInput)
    ensures WeaponCalls(FrameStep(s, input).actions)
         == if input.focusOnInputField || input.isDead then []
            else FireStep(s.(isLeftHandAttacking := input.aimLeftHandOut), input.wasd, input.constructing).actions
  {
    if !(input.focusOnInputField || input.isDead) {
      var aimed := s.(isLeftHandAttacking := input.aimLeftHandOut);
      var wasd := WASDStep(aimed, input.wasd, input.constructing);
      var buttons := if input.constructing then [] else NearbyActions(input);
      assert FrameStep(s, input).actions == buttons + wasd.actions;
      NearbyMakesNoWeaponCall(input);
      WASDWeaponCalls(aimed, input.wasd, input.constructing);
      WeaponCallsAppend(buttons, wasd.actions);
    } else {
      assert FrameStep(s, input).actions == [StopMovement] == [StopMovement] + [];
    }
  }

  // ---------------------------------------------------------------------------
  // Sprint, walk, swim and the extra movement state
  // ---------------------------------------------------------------------------

  /** A frame never leaves the character both sprinting and walking, when it did not start so. */
  lemma FrameKeepsGaitExclusive(s: ControlState, input: FrameInput)
    requires !(s.isSprinting && s.isWalking)
    ensures !(FrameStep(s, input).state.isSprinting && FrameStep(s, input).state.isWalking)
  {
  }

  /** From any state that is not both sprinting and walking, no sequence of frames reaches one that is. */
  lemma {:induction false} RunKeepsGaitExclusive(s: ControlState, frames: seq<FrameInput>)
    requires !(s.isSprinting && s.isWalking)
    ensures !(Run(s, frames).isSprinting && Run(s, frames).isWalking)
    decreases |frames|
  {
    if frames != [] {
      FrameKeepsGaitExclusive(s, frames[0]);
      RunKeepsGaitExclusive(FrameStep(s, frames[0]).state, frames[1..]);
    }
  }

  lemma InitialStateNeverSprintsAndWalks(frames: seq<FrameInput>)
    ensures !(Run(InitialState, frames).isSprinting && Run(InitialState, frames).isWalking)
  {
    RunKeepsGaitExclusive(InitialState, frames);
  }

  /**
   * On the ground (and not underwater) Sprint toggles sprinting and clears
   * walking; otherwise Walk toggles walking and clears sprinting; without
   * either the gait is kept. Underwater both are cleared.
   */
  lemma GaitRules(sprinting: bool, walking: bool, input: WASDInput)
    ensures input.underWater ==> GaitAfter(sprinting, walking, input) == Gait(false, false)
    ensures !input.underWater && input.grounded && input.sprintDown
            ==> GaitAfter(sprinting, walking, input) == Gait(!sprinting, false)
    ensures !input.underWater && input.grounded && !input.sprintDown && input.walkDown
            ==> GaitAfter(sprinting, walking, input) == Gait(false, !walking)
    ensures !input.underWater && !(input.grounded && (input.sprintDown || input.walkDown))
            ==> GaitAfter(sprinting, walking, input) == Gait(sprinting, walking)
  {
  }

  /** SwimUp beats SwimDown, at most one of them is set, both only underwater, and jump only on the ground. */
  lemma MovementFlagRules(input: WASDInput)
    ensures !(MovementFlagsOf(input).up && MovementFlagsOf(input).down)
    ensures MovementFlagsOf(input).up <==> input.underWater && input.swimUpHeld
    ensures MovementFlagsOf(input).down <==> input.underWater && !input.swimUpHeld && input.swimDownHeld
    ensures MovementFlagsOf(input).jump <==> !input.underWater && input.grounded && input.jumpDown
  {
  }

  /** The gait an extra movement state stands for. */
  function GaitOf(x: ExtraMovementState): Gait {
    Gait(x == IsSprinting, x == IsWalking)
  }

  /** Sprinting wins over walking, and an exclusive gait can be read back from the state sent. */
  lemma ExtraStateRules(sprinting: bool, walking: bool)
    ensures ExtraStateOf(sprinting, walking) == IsSprinting <==> sprinting
    ensures ExtraStateOf(sprinting, walking) == IsWalking <==> !sprinting && walking
    ensures ExtraStateOf(sprinting, walking) == NoExtraMovement <==> !sprinting && !walking
    ensures !(sprinting && walking) ==> GaitOf(ExtraStateOf(sprinting, walking)) == Gait(sprinting, walking)
  {
  }

  /** Each handled frame ends by telling the character the gait it now has. */
  lemma FrameReportsGait(s: ControlState, input: FrameInput)
    requires !(s.isSprinting && s.isWalking)
    requires !input.focusOnInputField && !input.isDead
    ensures var r := FrameStep(s, input);
            r.actions != [] && r.actions[|r.actions| - 1].SetExtraMovementState?
            && GaitOf(r.actions[|r.actions| - 1].state) == Gait(r.state.isSprinting, r.state.isWalking)
  {
    FrameKeepsGaitExclusive(s, input);
  }

  // ---------------------------------------------------------------------------
  // The cursor-over-UI latch
  // ---------------------------------------------------------------------------

  /** A handled frame that presses fire with the pointer over UI. */
  predicate SetsLatch(input: FrameInput) {
    && !input.focusOnInputField && !input.isDead && !input.wasd.usingHotkey
    && FirePhaseOf(input.wasd.fire1, input.wasd.attack) == Pressed
    && input.wasd.pointerOverUI
  }

  /** A handled frame that releases fire with the pointer away from UI. */
  predicate ClearsLatch(input: FrameInput) {
    && !input.focusOnInputField && !input.isDead && !input.wasd.usingHotkey
    && FirePhaseOf(input.wasd.fire1, input.wasd.attack) == Released
    && !input.wasd.pointerOverUI
  }

  /** An unset latch becomes set exactly on a press over UI, and that frame makes no weapon call. */
  lemma LatchSetExactlyByPressOverUI(s: ControlState, input: FrameInput)
    requires !s.attackPreventedWhileCursorOverUI
    ensures FrameStep(s, input).state.attackPreventedWhileCursorOverUI <==> SetsLatch(input)
    ensures SetsLatch(input) ==> WeaponCalls(FrameStep(s, input).actions) == []
  {
    FrameWeaponCalls(s, input);
  }

  /** A set latch is cleared exactly by a release away from UI. */
  lemma LatchClearedExactlyByReleaseAwayFromUI(s: ControlState, input: FrameInput)
    requires s.attackPreventedWhileCursorOverUI
    ensures !FrameStep(s, input).state.attackPreventedWhileCursorOverUI <==> ClearsLatch(input)
  {
  }

  /** While the latch is set at the start of a frame, the frame neither attacks nor charges. */
  lemma LatchedFrameMakesNoWeaponCall(s: ControlState, input: FrameInput)
    requires s.attackPreventedWhileCursorOverUI
    ensures WeaponCalls(FrameStep(s, input).actions) == []
  {
    FrameWeaponCalls(s, input);
  }

  /** Once latched, frames make no weapon call until one of them releases fire away from UI. */
  lemma {:induction false} LatchedRunMakesNoWeaponCall(s: ControlState, frames: seq<FrameInput>)
    requires s.attackPreventedWhileCursorOverUI
    requires forall k :: 0 <= k < |frames| ==> !ClearsLatch(frames[k])
    ensures Run(s, frames).attackPreventedWhileCursorOverUI
    ensures WeaponCalls(RunActions(s, frames)) == []
    decreases |frames|
  {
    if frames != [] {
      var next := FrameStep(s, frames[0]);
      LatchedFrameMakesNoWeaponCall(s, frames[0]);
      LatchClearedExactlyByReleaseAwayFromUI(s, frames[0]);
      LatchedRunMakesNoWeaponCall(next.state, frames[1..]);
      WeaponCallsAppend(next.actions, RunActions(next.state, frames[1..]));
    }
  }

  /** While a hotkey is in use, the fire branch is skipped: no weapon call, latch and hand untouched. */
  lemma HotkeyInUseSkipsFire(s: ControlState, input: FrameInput)
    requires !input.focusOnInputField && !input.isDead
    requires input.wasd.usingHotkey
    ensures WeaponCalls(FrameStep(s, input).actions) == []
    ensures FrameStep(s, input).state.attackPreventedWhileCursorOverUI == s.attackPreventedWhileCursorOverUI
    ensures FrameStep(s, input).state.isLeftHandAttacking == input.aimLeftHandOut
  {
    FrameWeaponCalls(s, input);
  }

  // ---------------------------------------------------------------------------
  // Fire type and dispatch
  // ---------------------------------------------------------------------------

  /** The fire type is that of the attacking hand's weapon, or of the default weapon when that hand is empty; never the other hand's. */
  lemma FireTypeFromAttackingHand(isLeftHandAttacking: bool, e: Equipment)
    ensures SelectFireType(isLeftHandAttacking, e)
         == AttackingHandWeapon(isLeftHandAttacking, e).GetOr(e.defaultWeapon)
  {
  }

  /** A handled frame in which the latch, the hotkey UI and building placement do not interfere. */
  predicate FreeToFire(s: ControlState, input: FrameInput) {
    && !input.focusOnInputField && !input.isDead && !input.constructing
    && !input.wasd.usingHotkey && !s.attackPreventedWhileCursorOverUI
  }

  /** The fire type the frame dispatches on (after the look step has set the hand). */
  function FrameFireType(input: FrameInput): FireType {
    SelectFireType(input.aimLeftHandOut, input.wasd.equipment)
  }

  /** A fire-on-release weapon charges on a press away from UI and attacks on release, with the attacking hand. */
  lemma FireOnReleaseDispatch(s: ControlState, input: FrameInput)
    requires FreeToFire(s, input) && FrameFireType(input) == FireOnRelease
    ensures WeaponCalls(FrameStep(s, input).actions)
         == match FirePhaseOf(input.wasd.fire1, input.wasd.attack)
            case Pressed => if input.wasd.pointerOverUI then [] else [EntityStartCharge(input.aimLeftHandOut)]
            case Released => [EntityAttack(input.aimLeftHandOut)]
            case _ => []
  {
    FrameWeaponCalls(s, input);
  }

  /**
   * A charge that succeeds with the callee leaving the hand as passed switches
   * hands, and the release that follows dispatches on the other hand's weapon:
   * it attacks only when that weapon is also fire-on-release. So a charged
   * fire-on-release weapon paired with a repeat-fire weapon in the other hand
   * never releases its attack. (Between two whole frames the look step may
   * set the hand again; this is about two consecutive `UpdateWASDInput` runs.)
   */
  lemma ChargedReleaseUsesOtherHand(s: ControlState, press: WASDInput, release: WASDInput, constructing: bool)
    requires !constructing && !s.attackPreventedWhileCursorOverUI
    requires !press.usingHotkey && !release.usingHotkey
    requires FirePhaseOf(press.fire1, press.attack) == Pressed && !press.pointerOverUI
    requires SelectFireType(s.isLeftHandAttacking, press.equipment) == FireOnRelease
    requires press.chargeReply == EntityReply(true, s.isLeftHandAttacking)
    requires FirePhaseOf(release.fire1, release.attack) == Released
    requires release.equipment == press.equipment
    ensures var first := WASDStep(s, press, constructing);
            var hand := !s.isLeftHandAttacking;
            && first.state.isLeftHandAttacking == hand
            && WeaponCalls(first.actions) == [EntityStartCharge(s.isLeftHandAttacking)]
            && WeaponCalls(WASDStep(first.state, release, constructing).actions)
               == if SelectFireType(hand, press.equipment) == FireOnRelease then [EntityAttack(hand)] else []
  {
    var first := WASDStep(s, press, constructing);
    WASDWeaponCalls(s, press, constructing);
    WASDWeaponCalls(first.state, release, constructing);
  }

  /** Single-fire and automatic weapons attack on every held frame and on no other. */
  lemma RepeatFireDispatch(s: ControlState, input: FrameInput)
    requires FreeToFire(s, input) && FrameFireType(input) != FireOnRelease
    ensures WeaponCalls(FrameStep(s, input).actions)
         == if FirePhaseOf(input.wasd.fire1, input.wasd.attack) == Held then [EntityAttack(input.aimLeftHandOut)] else []
  {
    FrameWeaponCalls(s, input);
  }

  /** Only one of the press, hold and release branches runs, so a frame makes at most one weapon call. */
  lemma AtMostOneWeaponCall(s: ControlState, input: FrameInput)
    ensures |WeaponCalls(FrameStep(s, input).actions)| <= 1
  {
    FrameWeaponCalls(s, input);
  }

  // ---------------------------------------------------------------------------
  // Hand alternation and building placement
  // ---------------------------------------------------------------------------

  /**
   * When the entity leaves the by-reference hand as passed, the hand flag
   * changes exactly when the frame's attack or charge call succeeded.
   */
  lemma HandAlternatesExactlyOnSuccess(s: ControlState, input: FrameInput)
    requires !input.focusOnInputField && !input.isDead
    requires input.wasd.attackReply.isLeftHandOut == input.aimLeftHandOut
    requires input.wasd.chargeReply.isLeftHandOut == input.aimLeftHandOut
    ensures var calls := WeaponCalls(FrameStep(s, input).actions);
            var hand := input.aimLeftHandOut;
            (FrameStep(s, input).state.isLeftHandAttacking != hand) ==
              ((calls == [EntityAttack(hand)] && input.wasd.attackReply.succeeded) ||
               (calls == [EntityStartCharge(hand)] && input.wasd.chargeReply.succeeded))
  {
    FrameWeaponCalls(s, input);
  }

  /** While a building is being placed, no entity is activated or picked up, nothing is reloaded and no weapon is used. */
  lemma ConstructingSuppressesActions(s: ControlState, input: FrameInput)
    requires input.constructing
    ensures WeaponCalls(FrameStep(s, input).actions) == []
    ensures FrameStep(s, input).state.isLeftHandAttacking
         == if input.focusOnInputField || input.isDead then s.isLeftHandAttacking else input.aimLeftHandOut
    ensures forall a :: a in FrameStep(s, input).actions
              ==> !a.ActivateEntity? && !a.PickupActivateEntity? && !a.ReloadWeapon?
                  && !a.ExitVehicle? && !a.SwitchEquipWeaponSet?
  {
    FrameWeaponCalls(s, input);
  }

  // ---------------------------------------------------------------------------
  // Activation and pick-up
  // ---------------------------------------------------------------------------

  /** `UpdateWASDInput` never activates or picks up an entity. */
  lemma WASDActivatesNothing(s: ControlState, input: WASDInput, constructing: bool)
    ensures forall a :: a in WASDStep(s, input, constructing).actions ==> !a.ActivateEntity? && !a.PickupActivateEntity?
  {
    var fire := FireStep(s, input, constructing);
    var gait := GaitAfter(s.isSprinting, s.isWalking, input);
    var dialog: seq<Action> := if input.moving then [HideNpcDialog] else [];
    var trailer := [KeyMovement(MovementFlagsOf(input)), SetExtraMovementState(ExtraStateOf(gait.sprinting, gait.walking))];
    assert WASDStep(s, input, constructing).actions == dialog + fire.actions + trailer;
  }

  /** The reload, exit-vehicle and weapon-set buttons neither activate nor pick up. */
  lemma OtherButtonsActivateNothing(input: FrameInput)
    ensures forall a :: a in OtherButtonActions(input) ==> !a.ActivateEntity? && !a.PickupActivateEntity?
  {
  }

  lemma ActivateActionsHold(ready: seq<bool>, i: nat)
    ensures ActivateEntity(i) in ActivateActions(ready) <==> FirstReady(ready) == Some(i)
    ensures forall a :: a in ActivateActions(ready) ==> a.ActivateEntity?
  {
  }

  lemma PickupActionsHold(ready: seq<bool>, i: nat)
    ensures PickupActivateEntity(i) in PickupActions(ready) <==> FirstReady(ready) == Some(i)
    ensures forall a :: a in PickupActions(ready) ==> a.PickupActivateEntity?
  {
  }

  /** Which entities the button handling activates and picks up. */
  lemma NearbyActivations(input: FrameInput, i: nat)
    ensures ActivateEntity(i) in NearbyActions(input)
        <==> input.activateDown && FirstReady(input.nearby.canActivate) == Some(i)
    ensures PickupActivateEntity(i) in NearbyActions(input)
        <==> input.pickUpItemDown && FirstReady(input.nearby.canPickupActivate) == Some(i)
  {
    OtherButtonsActivateNothing(input);
    ActivateActionsHold(input.nearby.canActivate, i);
    PickupActionsHold(input.nearby.canPickupActivate, i);
  }

  /** The activate key activates the first ready entity and the pick-up key the first ready item drop, and only those. */
  lemma ActivationKeysPickFirstReady(s: ControlState, input: FrameInput, i: nat)
    ensures ActivateEntity(i) in FrameStep(s, input).actions
        <==> && !input.focusOnInputField && !input.isDead && !input.constructing
             && input.activateDown && FirstReady(input.nearby.canActivate) == Some(i)
    ensures PickupActivateEntity(i) in FrameStep(s, input).actions
        <==> && !input.focusOnInputField && !input.isDead && !input.constructing
             && input.pickUpItemDown && FirstReady(input.nearby.canPickupActivate) == Some(i)
  {
    if !(input.focusOnInputField || input.isDead) {
      var aimed := s.(isLeftHandAttacking := input.aimLeftHandOut);
      var wasd := WASDStep(aimed, input.wasd, input.constructing);
      var buttons := if input.constructing then [] else NearbyActions(input);
      assert FrameStep(s, input).actions == buttons + wasd.actions;
      WASDActivatesNothing(aimed, input.wasd, input.constructing);
      NearbyActivations(input, i);
    }
  }

  /** At most one entity is activated per frame. */
  lemma AtMostOneActivation(s: ControlState, input: FrameInput, i: nat, j: nat)
    requires ActivateEntity(i) in FrameStep(s, input).actions
    requires ActivateEntity(j) in FrameStep(s, input).actions
    ensures i == j
  {
    ActivationKeysPickFirstReady(s, input, i);
    ActivationKeysPickFirstReady(s, input, j);
  }

  /** At most one item drop is picked up per frame. */
  lemma AtMostOnePickup(s: ControlState, input: FrameInput, i: nat, j: nat)
    requires PickupActivateEntity(i) in FrameStep(s, input).actions
    requires PickupActivateEntity(j) in FrameStep(s, input).actions
    ensures i == j
  {
    ActivationKeysPickFirstReady(s, input, i);
    ActivationKeysPickFirstReady(s, input, j);
  }

  /** The reload choice never picks a full hand and prefers the right hand. */
  lemma ReloadPrefersRightHand(ammo: AmmoState)
    ensures ReloadActions(ammo) == [ReloadWeapon(RightHand)] <==> !ammo.rightFull
    ensures ReloadActions(ammo) == [ReloadWeapon(LeftHand)] <==> ammo.rightFull && !ammo.leftFull
    ensures ReloadActions(ammo) == [] <==> ammo.rightFull && ammo.leftFull
  {
  }

  // ---------------------------------------------------------------------------
  // Hotkeys
  // ---------------------------------------------------------------------------

  /**
   * Every hotkey use first clears the queued skill, and the hand flips only
   * when the use is reported; a hotkey type with no case does nothing more.
   */
  lemma HotkeyHandFlipMeansUsed(s: HotkeyState, input: HotkeyInput)
    ensures HotkeyUse(s, input).actions != [] && HotkeyUse(s, input).actions[0] == ClearQueueUsingSkill
    ensures HotkeyUse(s, input).state.isLeftHandAttacking != s.isLeftHandAttacking ==> HotkeyUse(s, input).used
    ensures input.kind == OtherHotkey ==> HotkeyUse(s, input) == HotkeyStep(false, s, [ClearQueueUsingSkill])
  {
  }

  /** A skill hotkey is reported used exactly when an attack skill was used, and exactly then the hand flips. */
  lemma SkillHotkeyAlternatesExactlyWhenUsed(s: HotkeyState, input: HotkeyInput)
    requires input.kind == SkillHotkey
    ensures var r := HotkeyUse(s, input);
            && (r.used <==> r.state.isLeftHandAttacking != s.isLeftHandAttacking)
            && (r.used <==> input.skill.SkillAvailable? && input.skill.isAttack && input.skillUseSucceeded)
            && r.state.hotkeyEquipWeaponSet == s.hotkeyEquipWeaponSet
            && r.state.buildingItemIndex == s.buildingItemIndex
  {
  }

  /** An item hotkey flips the hand only for a used attack skill item, and equips into the current weapon set. */
  lemma ItemHotkeyRules(s: HotkeyState, input: HotkeyInput)
    requires input.kind == ItemHotkey
    ensures var r := HotkeyUse(s, input);
            && r.state.hotkeyEquipWeaponSet == input.equipWeaponSet
            && (r.state.isLeftHandAttacking != s.isLeftHandAttacking
                <==> && input.item.InventoryItem? && input.item.index >= 0 && input.item.item.Some?
                     && !input.item.item.value.isEquipment && input.item.item.value.isSkill
                     && input.item.item.value.skillIsAttack && input.skillItemUseSucceeded)
            && (forall i, w :: EquipItem(i, w) in r.actions ==> w == input.equipWeaponSet && i >= 0)
            && (r.state.buildingItemIndex != s.buildingItemIndex ==> r.state.buildingItemIndex >= 0 && r.used)
  {
  }

  /** A guild-skill hotkey never touches the hand and is used only inside a guild. */
  lemma GuildSkillHotkeyRules(s: HotkeyState, input: HotkeyInput)
    requires input.kind == GuildSkillHotkey
    ensures HotkeyUse(s, input).state == s
    ensures HotkeyUse(s, input).used ==> input.joinedGuild
  {
  }
}
