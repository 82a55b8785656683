# Aim-at-cursor player controller: control state

A Dafny model of the per-frame control logic of the Unity
`AimAtCursorPlayerCharacterController`
(`Scripts/AimAtCursorPlayerCharacterController.cs`). The model covers the
controller's four control flags:

- `_isSprinting` and `_isWalking`, the sprint/walk toggles;
- `_attackPreventedWhileCursorOverUI`, the latch that stops a click on the
  UI from also making the character attack;
- `_isLeftHandAttacking`, the hand that attacks next.

It also covers the selection rules around them: the fire type, the hand to
reload, the nearby entity to activate or pick up, whether the activate,
hold-activate and pick-up buttons are shown, and the hotkey dispatch.

Every engine query the controller makes during a frame is a field of an
input record (`FrameInput`, `WASDInput`, `HotkeyInput` in `types.dfy`). This
covers button down/held/up states, the pointer-over-UI test, the movement
state bits, whether a building is being placed, the replies of the
character entity and the detectors' readiness answers. Every side effect
the controller causes becomes an `Action` value, emitted in call order.

Files:

- `types.dfy`: the input records, the state and the actions.
- `entity_search.dfy`: the first-match loop of the activate and pick-up
  keys, and the any-match loop of the button checks.
- `control_rules.dfy`: the rules as functions of the state before a frame
  and of the frame's input (`FrameStep`, `WASDStep`, `FireStep`,
  `GaitAfter`, `HotkeyUse`, ...).
- `controller.dfy`: the class `AimAtCursorPlayerCharacterController`. Its
  fields are the source's, and its methods update them step by step in the
  source's branch order. Each method is proved to produce exactly the state
  and actions of its rule.
- `properties.dfy`: what the rules guarantee, as lemmas.

The `ref` hand argument of the character's `Attack`, `StartCharge` and
`GetAttackAimPosition` lets the callee overwrite `_isLeftHandAttacking`.
The model gives each such call a reply (`EntityReply`) that carries both
the success flag and the value the callee left in the flag. The look step
is reduced to the value its aim-position query leaves in the flag
(`FrameInput.aimLeftHandOut`).

## Model

| member | source | states |
|---|---|---|
| EntitySearch.FirstReady | Scripts/AimAtCursorPlayerCharacterController.cs:171-179 | the position found is in range and ready, and no earlier entity is ready; there is no position exactly when no entity is ready |
| EntitySearch.FirstReadyUnique | Scripts/AimAtCursorPlayerCharacterController.cs:171-179 | a ready entity with no ready entity before it is the one the search finds |
| EntitySearch.FindFirstReady | Scripts/AimAtCursorPlayerCharacterController.cs:171-179 | the loop that breaks at the first entity whose readiness query holds returns the first ready position |
| EntitySearch.AnyReady | Scripts/AimAtCursorPlayerCharacterController.cs:673-680 | the early-return loop answers true exactly when some entity in the list is ready, which is exactly when the first-match search finds one |
| ControlRules.ReloadChoice | Scripts/AimAtCursorPlayerCharacterController.cs:510-517 | the hand chosen is never full, the left hand is chosen only when the right hand is full, and nothing is chosen exactly when both hands are full |
| PlayerController.AimAtCursorPlayerCharacterController.constructor | Scripts/AimAtCursorPlayerCharacterController.cs:67-73 | all four control flags start false |
| PlayerController.AimAtCursorPlayerCharacterController.UpdateInput | Scripts/AimAtCursorPlayerCharacterController.cs:154-229 | one frame produces the state and actions of `FrameStep`: a stop when an input field has focus or the character is dead; otherwise the buttons (unless a building is being placed), the look step's hand, then the WASD step; a state that is not both sprinting and walking stays so |
| PlayerController.AimAtCursorPlayerCharacterController.HandleNearbyButtons | Scripts/AimAtCursorPlayerCharacterController.cs:165-224 | activate, pick up, reload, exit vehicle, switch weapon set and auto-reload, in that order, as `NearbyActions` |
| PlayerController.AimAtCursorPlayerCharacterController.UpdateWASDInput | Scripts/AimAtCursorPlayerCharacterController.cs:231-366 | the state and actions of `WASDStep`: hide the NPC dialog when moving, then the fire branch, the key movement and the extra movement state |
| PlayerController.AimAtCursorPlayerCharacterController.HandleFireInput | Scripts/AimAtCursorPlayerCharacterController.cs:239-320 | the latch, the hand and the weapon calls of `FireStep`: fire type chosen first, then press, else hold, else release, skipped while a hotkey is in use |
| PlayerController.AimAtCursorPlayerCharacterController.HandleMovementInput | Scripts/AimAtCursorPlayerCharacterController.cs:322-365 | sprint and walk become `GaitAfter` of their old values, and the two last actions are the key movement flags and the extra state of the new gait |
| PlayerController.AimAtCursorPlayerCharacterController.Attack | Scripts/AimAtCursorPlayerCharacterController.cs:368-376 | nothing while constructing; otherwise one attack with the current hand, and the hand flips from the callee's value when the attack succeeded |
| PlayerController.AimAtCursorPlayerCharacterController.WeaponCharge | Scripts/AimAtCursorPlayerCharacterController.cs:378-385 | nothing while constructing; otherwise one charge with the current hand, and the hand flips from the callee's value when the charge started |
| PlayerController.AimAtCursorPlayerCharacterController.ReloadAmmo | Scripts/AimAtCursorPlayerCharacterController.cs:510-517 | emits the reload of the hand `ReloadChoice` picks, or nothing |
| PlayerController.AimAtCursorPlayerCharacterController.ShouldShowActivateButtons | Scripts/AimAtCursorPlayerCharacterController.cs:668-681 | true exactly when some activatable entity can be activated, which is exactly when the activate key would activate one |
| PlayerController.AimAtCursorPlayerCharacterController.ShouldShowHoldActivateButtons | Scripts/AimAtCursorPlayerCharacterController.cs:683-696 | true exactly when some hold-activatable entity can be hold-activated |
| PlayerController.AimAtCursorPlayerCharacterController.ShouldShowPickUpButtons | Scripts/AimAtCursorPlayerCharacterController.cs:698-711 | true exactly when some item drop can be picked up, which is exactly when the pick-up key would pick one up |
| PlayerController.AimAtCursorPlayerCharacterController.UseHotkey | Scripts/AimAtCursorPlayerCharacterController.cs:519-545 | clears the queued skill, then dispatches on the hotkey type; an item hotkey first records the character's weapon set; a type with no case reports false; result, fields and actions are those of `HotkeyUse` |
| PlayerController.AimAtCursorPlayerCharacterController.UseSkill | Scripts/AimAtCursorPlayerCharacterController.cs:547-560 | an unavailable skill reports false with no call; otherwise one use with the current hand, reported used and the hand flipped exactly when the use succeeded and the skill is an attack skill |
| PlayerController.AimAtCursorPlayerCharacterController.UseItem | Scripts/AimAtCursorPlayerCharacterController.cs:591-627 | an equipped item is unequipped; a negative index or missing item reports false; then equipment, skill, building and usable items are tried in that order, as `ItemUse` |
| PlayerController.AimAtCursorPlayerCharacterController.UseGuildSkill | Scripts/AimAtCursorPlayerCharacterController.cs:630-636 | reports use only inside a guild and only when the server command accepts; changes no field |
| ControlProperties.NearbyMakesNoWeaponCall | Scripts/AimAtCursorPlayerCharacterController.cs:163-225 | the button handling outside the fire branch never attacks or charges |
| ControlProperties.WASDWeaponCalls | Scripts/AimAtCursorPlayerCharacterController.cs:255-365 | the weapon calls of the WASD step are exactly those of its fire branch |
| ControlProperties.FrameWeaponCalls | Scripts/AimAtCursorPlayerCharacterController.cs:154-229 | a frame makes no weapon call when an input field has focus or the character is dead, and otherwise exactly those of its fire branch, run with the hand the look step left |
| ControlProperties.FrameKeepsGaitExclusive | Scripts/AimAtCursorPlayerCharacterController.cs:334-350 | a frame that starts not both sprinting and walking ends not both sprinting and walking |
| ControlProperties.RunKeepsGaitExclusive | Scripts/AimAtCursorPlayerCharacterController.cs:337-350 | the same over any sequence of frames |
| ControlProperties.InitialStateNeverSprintsAndWalks | Scripts/AimAtCursorPlayerCharacterController.cs:67-73 | from the initial flags, no sequence of frames makes the character both sprint and walk |
| ControlProperties.GaitRules | Scripts/AimAtCursorPlayerCharacterController.cs:324-350 | underwater both flags clear; on the ground Sprint toggles sprinting and clears walking, else Walk toggles walking and clears sprinting; otherwise both are kept |
| ControlProperties.MovementFlagRules | Scripts/AimAtCursorPlayerCharacterController.cs:324-354 | SwimUp beats SwimDown and at most one is set, both only underwater; jump only on the ground and not underwater |
| ControlProperties.ExtraStateRules | Scripts/AimAtCursorPlayerCharacterController.cs:360-365 | IsSprinting exactly when sprinting, IsWalking exactly when walking and not sprinting, None otherwise; an exclusive gait can be read back from the state sent |
| ControlProperties.FrameReportsGait | Scripts/AimAtCursorPlayerCharacterController.cs:357-365 | a handled frame ends by sending the extra movement state of the gait it leaves |
| ControlProperties.LatchSetExactlyByPressOverUI | Scripts/AimAtCursorPlayerCharacterController.cs:265-272 | an unset latch becomes set exactly when fire is pressed over UI outside hotkey use, and that frame makes no weapon call |
| ControlProperties.LatchClearedExactlyByReleaseAwayFromUI | Scripts/AimAtCursorPlayerCharacterController.cs:300-318 | a set latch is cleared exactly by a release frame with the pointer away from UI outside hotkey use |
| ControlProperties.LatchedFrameMakesNoWeaponCall | Scripts/AimAtCursorPlayerCharacterController.cs:272-313 | a frame that starts latched neither attacks nor charges |
| ControlProperties.LatchedRunMakesNoWeaponCall | Scripts/AimAtCursorPlayerCharacterController.cs:262-319 | once latched, frames stay latched and make no weapon call until one releases fire away from UI |
| ControlProperties.HotkeyInUseSkipsFire | Scripts/AimAtCursorPlayerCharacterController.cs:262 | while a hotkey is in use, no weapon call is made and the latch and the look step's hand are kept |
| ControlProperties.FireTypeFromAttackingHand | Scripts/AimAtCursorPlayerCharacterController.cs:239-253 | the fire type is that of the attacking hand's weapon, or of the default weapon when that hand is empty |
| ControlProperties.FireOnReleaseDispatch | Scripts/AimAtCursorPlayerCharacterController.cs:265-312 | when free to fire, a fire-on-release weapon charges on a press away from UI and attacks on release, with the attacking hand, and makes no other call |
| ControlProperties.ChargedReleaseUsesOtherHand | Scripts/AimAtCursorPlayerCharacterController.cs:239-385 | a successful charge switches hands, so the following release dispatches on the other hand's weapon and attacks, with that hand, only when it is also fire-on-release |
| ControlProperties.RepeatFireDispatch | Scripts/AimAtCursorPlayerCharacterController.cs:265-312 | when free to fire, single-fire and automatic weapons attack on held frames and on no other |
| ControlProperties.AtMostOneWeaponCall | Scripts/AimAtCursorPlayerCharacterController.cs:265-319 | a frame makes at most one attack or charge call |
| ControlProperties.HandAlternatesExactlyOnSuccess | Scripts/AimAtCursorPlayerCharacterController.cs:368-385 | when the callee leaves the hand as passed, the frame changes the hand exactly when its attack or charge call succeeded |
| ControlProperties.ConstructingSuppressesActions | Scripts/AimAtCursorPlayerCharacterController.cs:162-225 | while a building is being placed: no weapon call, no activation, pick-up, reload, vehicle exit or weapon-set switch, and the hand is the look step's |
| ControlProperties.WASDActivatesNothing | Scripts/AimAtCursorPlayerCharacterController.cs:231-366 | the WASD step never activates or picks up an entity |
| ControlProperties.OtherButtonsActivateNothing | Scripts/AimAtCursorPlayerCharacterController.cs:199-224 | reload, exit-vehicle and weapon-set handling never activate or pick up an entity |
| ControlProperties.ActivateActionsHold | Scripts/AimAtCursorPlayerCharacterController.cs:166-181 | the activate key activates position i exactly when i is the first ready entity, and does nothing else |
| ControlProperties.PickupActionsHold | Scripts/AimAtCursorPlayerCharacterController.cs:183-198 | the pick-up key picks up position i exactly when i is the first ready item drop, and does nothing else |
| ControlProperties.NearbyActivations | Scripts/AimAtCursorPlayerCharacterController.cs:166-198 | the button handling activates position i exactly when Activate is down and i is the first ready entity; the same for pick-up |
| ControlProperties.ActivationKeysPickFirstReady | Scripts/AimAtCursorPlayerCharacterController.cs:154-198 | a frame activates or picks up position i exactly when it is handled, no building is being placed, the key is down and i is the first ready entity |
| ControlProperties.AtMostOneActivation | Scripts/AimAtCursorPlayerCharacterController.cs:171-178 | a frame activates at most one entity |
| ControlProperties.AtMostOnePickup | Scripts/AimAtCursorPlayerCharacterController.cs:188-195 | a frame picks up at most one item drop |
| ControlProperties.ReloadPrefersRightHand | Scripts/AimAtCursorPlayerCharacterController.cs:510-517 | the right hand is reloaded exactly when it is not full, the left hand exactly when the right is full and the left is not, nothing exactly when both are full |
| ControlProperties.HotkeyHandFlipMeansUsed | Scripts/AimAtCursorPlayerCharacterController.cs:519-545 | every hotkey use starts by clearing the queued skill, a hotkey that flips the hand is reported used, and a hotkey type with no case only clears the queue and reports false |
| ControlProperties.SkillHotkeyAlternatesExactlyWhenUsed | Scripts/AimAtCursorPlayerCharacterController.cs:547-560 | a skill hotkey is reported used exactly when an available attack skill was used successfully, exactly then the hand flips, and nothing else changes |
| ControlProperties.ItemHotkeyRules | Scripts/AimAtCursorPlayerCharacterController.cs:591-627 | an item hotkey records the weapon set, flips the hand exactly for a successfully used attack skill item, equips only into the recorded set at a non-negative index, and records a building index only when non-negative and used |
| ControlProperties.GuildSkillHotkeyRules | Scripts/AimAtCursorPlayerCharacterController.cs:630-636 | a guild-skill hotkey changes no field and is used only inside a guild |

## Left out

- `Awake`, `OnDestroy`, `Desetup` and `Update` are not modelled. They are engine lifecycle code: component lookup and camera wiring.
- The look step `UpdateLookInput` (raycast picking, target selection, turning and pitch) is not modelled. It is physics and floating-point work. Only its effect on the hand flag is kept, through the `ref` argument of `GetAttackAimPosition`, as the input `aimLeftHandOut`.
- `GetMoveDirection`, `XZ`, the raw-or-smoothed axis choice for mobile input (line 234) and the move-direction normalisation are not modelled; they are floating-point vector maths. A frame only reports whether the direction is non-zero (`moving`).
- `GameplayUtils.GetStraightlyMovementStateByDirection` is left out; it is an external library call. The movement flags hold only the up, down and jump bits this controller sets itself.
- `UseItem`'s item lookup in the game data and inventory (lines 564-590) is abstracted to its outcome, `ItemLookup`. The dispatch after it is modelled.
- The network and inventory requests are opaque actions with no behaviour: exit vehicle, switch weapon set (the requested set, one more than the current set as a byte, is not modelled), equip, unequip, use item and use guild skill. This also covers the NPC dialog, the building dialog and the queued-skill clearing.
- `SetTargetEntity(SelectedGameEntity)` before an attack is folded into the `EntityAttack` action. The selected entity and the aim position passed to skill uses are not modelled.
- The `onBefore...`/`onAfter...` hotkey events are C# event invocations and are left out.
- The `Count > 0` tests before the activate, pick-up and button loops are not modelled separately; with an empty list the loop finds nothing either way.
- HandAlternatesExactlyOnSuccess: the source's callee may rewrite the `ref` hand flag, so the lemma assumes the callee leaves it as passed. Without that, the model states only that the flag ends as the callee's value, negated on success (`HandAfterReply`).
