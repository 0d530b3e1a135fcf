# Player combat animation sequencer and debug overlay state, in Dafny

This project models two parts of the Arx Libertatis engine.

**The player's combat animation sequencer** (`src/core/Core.cpp`). Once per frame the engine runs the following passes:

- `ManageCombatModeAnimations` picks the next animation of the player's main weapon layer. Its inputs are:
  - the layer's animation, flags and time;
  - the equipped weapon type;
  - whether the attack button is held.
  The pass updates the player's combat fields: aim timer, hit latch, strike direction, strike and bow aim ratios, and the bow aim rotation. It also emits the side effects of a strike: script events, speech, hit checks and arrow throws.
- `ManageCombatModeAnimationsEND` finishes the two-part ready and unready sequences, the spell cast animations and the shield teardown.
- `ManageNONCombatModeAnimations` drives the shield layer.
- `StrikeAimtime` and `strikeSpeak` compute the strike's aim ratio and the strike speech.

**The state-keeping parts of the debug overlay** (`src/graphics/DrawDebug.cpp`):

- the debug view selector cycled by `drawDebugCycleViews`;
- the list of timed debug rays, which `debug::drawRay` appends to and `updateAndRenderDebugDrawables` purges in place;
- the clamp that keeps a material-texture label on screen.

## Layout

- `anims.dfy`, module `Anims`, holds the animation catalogue:
  - `Anim` replaces the engine's `alist[BASE + j * 3]` handle arithmetic with constructors such as `Wait(w)`, `StrikeStart(w, d)`, `StrikeCycle(w, d)` and `Recover(w, d)`;
  - a layer is the current animation, its flags and its time;
  - `ChangeAnimation` and `SetAnimation` model `changeAnimation` and `ANIM_Set`.
- `combat_spec.dfy`, module `CombatSpec`, gives each block of the three passes as a function:
  - a function maps a context `Ctx(state, log)` and the frame's inputs to the new state and log;
  - the player's global fields, layers 1 and 3, `io->isHit` and the statics `LAST_WEAPON_TYPE` and `WILLRETURNTOCOMBATMODE` form one `Combat` record;
  - what the engine answers during the frame is a `Frame` value: button state, oracle results, frame duration, arrow stack;
  - the side effects are `Event`s appended to the log.
- `player_combat.dfy`, module `PlayerCombat`, holds the class `CombatContext`:
  - its methods perform the engine's assignments one at a time on its `st` and `log` fields, including the `for (j = 0; j < 4; j++)` strike loop and the `for (i = -2; i <= 2; i++)` side-shot loop;
  - each method is proved to end in the state and log that the matching `CombatSpec` function computes.
- `combat_props.dfy`, module `CombatProps`, holds the sequencer's guarantees as lemmas about those functions:
  - melee transitions;
  - the one-hit-per-swing latch over a whole swing: the release frame lands no check, and the frames after it, up to the one on which the swing ends, land at most one;
  - bow charge and launch;
  - the end pass;
  - the shield layer.
- `debug_draw.dfy`, module `DebugDraw`, holds the view selector, the ray list and the label placement.

## Model

| member | source | states |
|---|---|---|
| CombatSpec.StrikeAimRatio | src/core/Core.cpp:479 | The strike aim ratio is aimTime / Full_AimTime clamped to [0.1, 1]. It equals the quotient inside that range and the nearer bound outside it. |
| CombatSpec.Clamp | src/core/Core.cpp:479 | `glm::clamp`: the result lies in [lo, hi]. It is the input when the input is inside and the nearer bound otherwise. |
| CombatProps.AimRatioBounded | src/core/Core.cpp:475-482 | `StrikeAimtime` leaves the strike ratio in [0.1, 1]. It emits only the end of invisibility and changes no other player field. It is stated about `CombatSpec.AimStrike`. |
| CombatProps.SpeechOnlyWhenStrong | src/core/Core.cpp:484-501 | `strikeSpeak` speaks only when the ratio exceeds 0.8 and a speech is set. The weapon's speech takes precedence over the player's. Otherwise it emits nothing beyond `StrikeAimtime`. It is stated about `CombatSpec.SpeakStrike`. |
| PlayerCombat.CombatContext.StrikeAimtime | src/core/Core.cpp:475-482 | The ratio ends in [0.1, 1]. The method returns true exactly when the ratio is above 0.8. |
| PlayerCombat.CombatContext.StrikeSpeak | src/core/Core.cpp:484-501 | The method leaves the state and log that the aim-and-speak block specifies. |
| PlayerCombat.CombatContext.ManageNonCombatModeAnimations | src/core/Core.cpp:447-473 | The shield pass changes only layer 3, as `ShieldPass` specifies. |
| CombatSpec.ShieldPass | src/core/Core.cpp:447-473 | The shield pass changes nothing but layer 3. |
| CombatProps.ShieldSteps | src/core/Core.cpp:447-473 | Leaning changes nothing. With a usable shield, the layer goes from nothing or shield-end to shield-start, then to a looping shield-cycle when start ends. Without one, cycle goes to shield-end, and an ended shield-end is cleared. Layer 3 never holds anything but the shield animations. |
| PlayerCombat.CombatContext.ManageCombatModeAnimations | src/core/Core.cpp:503-959 | One main pass leaves exactly the state and log that `MainPass` computes. |
| CombatSpec.MainPass | src/core/Core.cpp:503-959 | After a main pass, `LAST_WEAPON_TYPE` is the weapon of the frame. The pass keeps the fields it never writes and only appends to the log. |
| PlayerCombat.CombatContext.StartFrameBlocks | src/core/Core.cpp:507-523 | The aim timer advances only while it runs. Switching to bare hands forces the bare Wait with the timer stopped. |
| PlayerCombat.CombatContext.MeleeBranch | src/core/Core.cpp:526-746 | The Wait block and the four-turn strike loop of a melee weapon end as `MeleePass` specifies. The loop invariant ties turn j to the first j turns. |
| CombatSpec.MeleePass | src/core/Core.cpp:526-746 | A melee branch: the Wait block, then the four turns. It keeps the shield arm, the interface bits and the spell state, and only appends to the log. Its transitions are stated by `CombatProps.MeleeFrameUnfolds` and the lemmas after it. |
| CombatSpec.MeleeLoop | src/core/Core.cpp:536-592 | The first n turns of `for (j = 0; j < 4; j++)`. It keeps the shield arm, the interface bits and the spell state, and only appends to the log. `CombatProps.LoopQuiet` and `CombatProps.LoopDoesTurn` reduce it to the one turn that applies. |
| PlayerCombat.CombatContext.WaitBlock | src/core/Core.cpp:527-533 | On Wait the timer stops, and a pressed button starts StrikeStart in the chosen direction with isHit cleared. |
| PlayerCombat.CombatContext.StrikeTurn | src/core/Core.cpp:537-591 | One turn j of the strike loop ends as `MeleeTurn` specifies. |
| CombatSpec.MeleeTurn | src/core/Core.cpp:537-591 | Turn j, the else-if chain over StrikeStart[j], StrikeCycle[j] and Recover[j]. It keeps the shield arm, the interface bits and the spell state, and only appends to the log. |
| PlayerCombat.CombatContext.Release | src/core/Core.cpp:540-547 | Releasing the button in StrikeCycle[j] ends as `ReleaseStrike` specifies. |
| CombatSpec.ReleaseStrike | src/core/Core.cpp:540-547 | The release. It keeps the shield arm, the interface bits and the spell state, and only appends to the log. What it emits and sets is stated by `CombatProps.ReleaseStrikeEmits`. |
| PlayerCombat.CombatContext.BareSwing | src/core/Core.cpp:547-591 | The bare-hand Recover block ends as `BareRecover` specifies. |
| CombatSpec.BareRecover | src/core/Core.cpp:547-591 | The bare-hand swing. It keeps the shield arm, the interface bits and the spell state, and only appends to the log. Its latch behaviour is stated by `CombatProps.BareRecoverSwing` and `CombatProps.BareSwingEnds`. |
| CombatSpec.BareHit | src/core/Core.cpp:571-588 | A blow that touched something. It keeps the shield arm, the interface bits and the spell state, and only appends to the log. Its events and latch are stated by `CombatProps.BareHitEvents` and `CombatProps.BareHitLatches`. |
| CombatSpec.SparkCount | src/core/Core.cpp:578 | The number of sparks is the damage truncated toward zero: for a non-negative damage it is the largest whole number not above it, and below 1 it is 0. |
| PlayerCombat.CombatContext.WeaponSwing | src/core/Core.cpp:616-643 | The dagger, 1H and 2H Recover block ends as `WeaponRecover` specifies. |
| CombatSpec.WeaponRecover | src/core/Core.cpp:616-643 | The dagger, 1H and 2H swing: resolve, then end, then follow-up. It keeps the shield arm, the interface bits and the spell state, and only appends to the log. It is stated by `CombatProps.WeaponRecoverSwing` and `CombatProps.WeaponRecoverEnds`. |
| PlayerCombat.CombatContext.StrikeCheckBlock | src/core/Core.cpp:617-627 | The resolving strike check ends as `ResolveStrike` specifies. |
| CombatSpec.ResolveStrike | src/core/Core.cpp:617-627 | The resolving check. It keeps the shield arm, the interface bits and the spell state, and only appends to the log. Its latch behaviour is stated by `CombatProps.ResolveStrikeLatches`. |
| PlayerCombat.CombatContext.SwingEndBlock | src/core/Core.cpp:629-635 | The end of a weapon swing ends as `SwingEnd` specifies. |
| CombatSpec.SwingEnd | src/core/Core.cpp:629-635 | The end of a weapon swing emits nothing. It keeps the shield arm, the interface bits and the spell state, and only appends to the log. |
| PlayerCombat.CombatContext.FollowUpBlock | src/core/Core.cpp:637-642 | The follow-up strike check ends as `FollowUp` specifies. |
| CombatSpec.FollowUp | src/core/Core.cpp:637-642 | The follow-up check changes no state and only appends to the log. When it runs is stated by `CombatProps.FollowUpAddsNoHit`. |
| CombatProps.TurnElsewhere | src/core/Core.cpp:536-547 | A strike-loop turn whose three animations the layer does not play changes nothing. |
| CombatProps.LoopQuiet | src/core/Core.cpp:536-592 | When no turn before n applies, the first n turns change nothing. |
| CombatProps.LoopDoesTurn | src/core/Core.cpp:536-592 | When only turn j applies, before and after it, the whole loop is turn j. |
| CombatProps.SteadyStart | src/core/Core.cpp:507-523 | Unless the frame switches to bare hands, the opening blocks change only the aim timer. It is stated about `CombatSpec.StartFrame`. |
| CombatProps.MeleeFrameUnfolds | src/core/Core.cpp:503-594 | A steady melee frame is its Wait block and its loop, applied after the timer advance. |
| CombatProps.MeleeFrameTurn | src/core/Core.cpp:536-592 | A steady melee frame whose layer plays an animation of direction j is turn j alone. |
| CombatProps.StrikeBegins | src/core/Core.cpp:527-533 | From Wait with the button pressed, the next animation is StrikeStart[strikeDirection]. isHit is cleared, the timer is stopped and nothing is emitted. It is stated about `CombatSpec.MeleeWait`. |
| CombatProps.WaitIdles | src/core/Core.cpp:527-533 | From Wait with the button up, the only changes are the stopped timer and `LAST_WEAPON_TYPE` becoming the frame's weapon. It is stated about `CombatSpec.MeleeWait`. |
| CombatProps.StrikeHeld | src/core/Core.cpp:537-539 | An ended StrikeStart[j] goes to a looping StrikeCycle[j] with the aim timer running. Nothing is emitted. |
| CombatProps.StrikeCharging | src/core/Core.cpp:536-547 | StrikeCycle[j] with the button held changes nothing but the aim timer and `LAST_WEAPON_TYPE`. |
| CombatProps.StrikeReleased | src/core/Core.cpp:540-547 | StrikeCycle[j] with the button released goes to Recover[j], never to Wait. It emits exactly one SM_STRIKE event, tagged "bare", "dagger", "1h" or "2h", and it comes last. The strike direction and timer reset. The ratio lies in [0.1, 1]. Bare hands alone reopen the hit latch. No damaging check lands on the release frame. |
| CombatProps.ReleaseStrikeEmits | src/core/Core.cpp:540-547 | The release block ends in Recover[j]. It emits the end of invisibility first and one SM_STRIKE event last, with no other strike event. No damaging check lands. |
| CombatProps.HitWindowFractions | src/core/Core.cpp:553-555 | The hit window, kept in integer tenths, is strictly between 0.2 and 0.8 of the animation time for bare hands, and strictly between 0.3 and 0.7 for the other melee weapons. |
| CombatProps.BareRecoverSwing | src/core/Core.cpp:553-576 | A bare-hand swing frame that has not ended leaves the layer alone. It emits a damage attempt only inside the window with the latch open. A landed hit latches the swing at the layer time. |
| CombatProps.BareHitEvents | src/core/Core.cpp:571-588 | A blow that touched something emits the damage attempt, then the sparks (the damage truncated to a count), then possibly the collision sound, and nothing else. |
| CombatProps.BareHitLatches | src/core/Core.cpp:571-588 | A blow that touched something makes exactly one damage attempt, first in the log, whether or not it lands. It latches the swing at the layer time exactly when the attempt lands. |
| CombatProps.ResolveStrikeLatches | src/core/Core.cpp:617-627 | The resolving strike check runs only inside the window with the latch open. A hit latches the swing at the layer time. It emits no follow-up check. |
| CombatProps.FollowUpAddsNoHit | src/core/Core.cpp:637-642 | The follow-up check changes no state and adds no hit. It runs exactly when the swing is latched and the layer time is below 0.9 of the animation time. |
| CombatProps.WeaponRecoverSwing | src/core/Core.cpp:616-643 | A dagger, 1H or 2H swing frame that has not ended keeps the layer and checks only inside the open window. A hit latches the swing. The follow-up check runs exactly when the swing is latched below 0.9 of the animation time. |
| CombatProps.SwingFrameIsBlock | src/core/Core.cpp:503-594 | A frame inside a swing is the swing block alone. |
| CombatProps.BareSwingFrame | src/core/Core.cpp:547-591 | Over a whole main pass inside a bare-hand swing, damage attempts happen only in the open window, and a hit latches the swing. |
| CombatProps.WeaponSwingFrame | src/core/Core.cpp:616-643 | Over a whole main pass inside a dagger, 1H or 2H swing, strike checks happen only in the open window, and a hit latches the swing. The follow-up check runs exactly when the swing is latched below 0.9 of the animation time. |
| CombatProps.OneHitPerSwing | src/core/Core.cpp:553-576 | Over any number of frames of one Recover before it ends, at most one damaging check lands, and none when the swing started latched. The swing is still playing afterwards. The latch is closed if a check landed and untouched otherwise. |
| CombatProps.SwingEndFrame | src/core/Core.cpp:548-552 | On the frame a Recover ends, at most one check lands (the dagger, 1H and 2H resolving check still runs), and none if the latch was closed. The weapon is back in Wait with the latch open. |
| CombatProps.OneHitPerWholeSwing | src/core/Core.cpp:548-642 | From the first frame after the release to the frame on which the swing ends, at most one damaging check lands, and none if the swing started latched. The swing ends in Wait with the latch open. |
| CombatProps.BareSwingEnds | src/core/Core.cpp:548-552 | An ended bare Recover goes back to a looping Wait. The direction is reset, the timer runs and the latch is open. Nothing is emitted. |
| CombatProps.WeaponSwingEnds | src/core/Core.cpp:629-642 | An ended dagger, 1H or 2H Recover goes back to a looping Wait with PAUSED and REVERSE cleared. The direction is reset and the latch is open. The timer is 1 for the dagger and 0 for 1H and 2H. No follow-up check runs in that frame. At most one resolving check lands on it, and none if the swing was latched. |
| CombatProps.WeaponRecoverEnds | src/core/Core.cpp:629-642 | On an ended layer, the weapon swing block returns to Wait as above. |
| PlayerCombat.CombatContext.BowBranch | src/core/Core.cpp:751-953 | The bow branch ends as `BowPass` specifies. |
| CombatSpec.BowPass | src/core/Core.cpp:751-953 | The bow branch. It keeps the shield arm, the interface bits and the spell state, and only appends to the log. Its charge, rotation and transitions are stated by the bow lemmas of `CombatProps`. |
| PlayerCombat.CombatContext.BowDrawnBlocks | src/core/Core.cpp:778-939 | The draw-and-hold blocks end as `BowDrawn` specifies. |
| CombatSpec.BowDrawn | src/core/Core.cpp:778-952 | The full-draw, hold, release and release-end blocks. It keeps the shield arm, the interface bits and the spell state, and only appends to the log. It is stated by `CombatProps.BowDrawStages`, `CombatProps.BowLaunchFrame` and `CombatProps.BowReleaseEnds`. |
| PlayerCombat.CombatContext.LaunchArrow | src/core/Core.cpp:859-939 | The release ends as `BowLaunch` specifies. |
| CombatSpec.BowLaunch | src/core/Core.cpp:859-939 | The release. It keeps the shield arm, the interface bits and the spell state, and only appends to the log. Its exact log is stated by `CombatProps.BowLaunchEmits`. |
| PlayerCombat.CombatContext.Loosen | src/core/Core.cpp:914-937 | The throw and the `i = -2 .. 2` side-shot loop end as `Loose` specifies. |
| CombatSpec.Loose | src/core/Core.cpp:914-937 | The volley. It keeps the shield arm, the interface bits and the spell state, and only appends to the log. Its arrows are stated by `CombatProps.SideShotsFan` and `CombatProps.ShotBounds`. |
| CombatSpec.LaunchSpeed | src/core/Core.cpp:914 | The arrow speed is max(aim + 0.3, 0.9), so it is never below 0.9. |
| CombatSpec.LaunchGravity | src/core/Core.cpp:919 | The gravity is 0.0002 · clamp(1 − aim, 0, 1): it lies in [0, 0.0002]. It is zero at full charge and 0.0002 with no charge. |
| CombatSpec.SpendQuiver | src/core/Core.cpp:873-880 | A positive poison count is decremented. Poison is removed when that leaves no charge. A stack without charges is unchanged. |
| CombatSpec.AimRotation | src/core/Core.cpp:850-855 | The improved aim rotation stays within ±90° in pitch and yaw, with no roll. |
| CombatProps.BowFrameUnfolds | src/core/Core.cpp:503-958 | A bow frame is the bow branch applied after the timer advance. The last weapon becomes the bow. |
| CombatProps.BowDrawNeedsArrows | src/core/Core.cpp:762-768 | From the bow's Wait, the first draw starts exactly when the button is pressed and an arrow stack exists, with isHit cleared. Otherwise the layer is unchanged. |
| CombatProps.LaunchKeepsCharge | src/core/Core.cpp:859-939 | A release leaves the bow charge and rotation alone. |
| CombatProps.BowPassCharge | src/core/Core.cpp:752-759 | The charge and rotation after the bow branch, for each pose. |
| CombatProps.BowCycleCharge | src/core/Core.cpp:752-756 | While the bow is held drawn, the charge grows and is capped at 1. The rotation is kept, or follows the improved aim. |
| CombatProps.BowOtherCharge | src/core/Core.cpp:757-759 | In every other pose the rotation is reset. The charge drops, floored at 0, during the release, becomes 0 when the release ends, and is otherwise unchanged. |
| CombatProps.BowChargeBounded | src/core/Core.cpp:752-768 | With a non-negative increment, a bow frame keeps the charge in [0, 1], with the exact value for each pose. |
| CombatProps.MeleeTurnKeepsBow | src/core/Core.cpp:536-592 | No turn of the melee loop writes the bow's charge or rotation. |
| CombatProps.MeleeLoopKeepsBow | src/core/Core.cpp:536-592 | The first n turns of the melee loop keep the bow's charge and rotation. |
| CombatProps.MeleeKeepsBow | src/core/Core.cpp:503-750 | A main pass with a melee weapon keeps the bow's charge and rotation. |
| CombatProps.BowChargeInvariant | src/core/Core.cpp:503-959 | Whatever the weapon, a main pass with a non-negative increment keeps the bow's charge in [0, 1]. |
| CombatProps.BowRotationReset | src/core/Core.cpp:752-759 | The aim rotation is reset whenever the bow is not held drawn, and stays within ±90° when it is. |
| CombatProps.NoLaunchWhilePressed | src/core/Core.cpp:859-861 | No arrow is thrown in a frame where the button is held. |
| CombatProps.SideShotsFan | src/core/Core.cpp:929-937 | The side-shot loop throws four extra arrows at yaw −8, −4, 4 and 8 degrees, with the same speed, gravity, damage and poison. |
| CombatProps.ShotBounds | src/core/Core.cpp:914-927 | Every arrow flies at speed ≥ 0.9, with gravity in [0, 0.0002] and the given damage and poison. |
| CombatProps.BowLaunchEmits | src/core/Core.cpp:865-939 | A release emits, in order: the arrow unlink, SM_STRIKE "bow", the end of invisibility, the spent quiver if one exists, and the volley (1 throw, or 5 with a multiple shot) if the arrow model is usable. It plays the release animation and sets the strike ratio to the bow charge. |
| CombatProps.BowLaunchFrame | src/core/Core.cpp:752-939 | A bow frame that releases a drawn bow emits that sequence, using the charge reached in that frame. |
| CombatProps.BowDrawStages | src/core/Core.cpp:771-780 | An ended first draw nocks the arrow and plays the second draw with the timer stopped. An ended second draw goes to the looping held pose with the timer running. |
| CombatProps.BowReleaseEnds | src/core/Core.cpp:940-952 | An ended release goes back to a looping Wait. The charge and timer are reset, the latch is open and the arrow is unlinked. |
| PlayerCombat.CombatContext.ManageCombatModeAnimationsEnd | src/core/Core.cpp:961-1143 | One end pass leaves exactly the state and log that `EndPass` specifies. |
| CombatSpec.EndPass | src/core/Core.cpp:961-1143 | The end pass. It keeps the strike direction, the latch, the bow charge and `LAST_WEAPON_TYPE`, and only appends to the log. Its transitions are stated by `CombatProps.EndPassOnEnded` and the lemmas after it. |
| CombatSpec.LayerOneEnded | src/core/Core.cpp:983-1134 | The part of the end pass that runs on an ended layer 1. It keeps the strike direction, the latch, the bow charge and `LAST_WEAPON_TYPE`, and only appends to the log. It also leaves layer 3 alone. |
| PlayerCombat.CombatContext.ReadyEnding | src/core/Core.cpp:997-1114 | The weapon switch of the end pass ends as `ReadyEnd` specifies. |
| CombatSpec.ReadyEnd | src/core/Core.cpp:997-1114 | The weapon switch. It keeps the strike direction, the latch, the bow charge and `LAST_WEAPON_TYPE`, and only appends to the log. It also leaves layer 3 alone. Its transitions are stated by `CombatProps.ReadyFirstPartEnds`, `CombatProps.ReadyEnds`, `CombatProps.BowReadyEnds`, `CombatProps.BowDrawEnds` and `CombatProps.UnreadyFirstPartEnds`; `CombatProps.ReadyEndIdle` states that it ignores every other animation. |
| PlayerCombat.CombatContext.ReadyToFight | src/core/Core.cpp:1000-1008 | Ending a ready animation ends as `FinishReady` specifies. |
| CombatSpec.FinishReady | src/core/Core.cpp:1000-1008 | A final ready animation ends. It keeps the strike direction, the latch, the bow charge, `LAST_WEAPON_TYPE` and layer 3. It is stated by `CombatProps.ReadyEnds`. |
| PlayerCombat.CombatContext.CastEnding | src/core/Core.cpp:1117-1133 | The cast blocks end as `CastFinish` specifies. |
| CombatSpec.CastFinish | src/core/Core.cpp:1117-1133 | The cast blocks. It keeps the strike direction, the latch, the bow charge and `LAST_WEAPON_TYPE`, and only appends to the log. It also leaves layer 3 alone. It is stated by `CombatProps.CastEnds` and `CombatProps.CastEndFinishes`. |
| CombatProps.EndPassOnEnded | src/core/Core.cpp:961-1143 | On an ended layer 1, the end pass is the opening block, then the layer-1 blocks, then the shield block. |
| CombatProps.ReadyEndIdle | src/core/Core.cpp:997-1114 | The weapon switch ignores every animation it does not finish. |
| CombatProps.CastFinishIdle | src/core/Core.cpp:1117-1133 | The cast blocks ignore every other animation. |
| CombatProps.UnreadyEndClears | src/core/Core.cpp:983-995 | An ended final unready animation, for any weapon, clears layer 1 and changes no player field. |
| CombatProps.UnreadyFirstPartBlock | src/core/Core.cpp:1027-1029 | On the ended first unready part of a weapon, the switch block attaches the weapon to the back and plays the second unready part, not looping. Nothing else changes. |
| CombatProps.UnreadyFirstPartEnds | src/core/Core.cpp:1027-1029 | Over the whole end pass, an ended first unready part plays the second part, changes no player field, and emits only the attachment to the back. The same branch appears at lines 1050-1052, 1073-1075 and 1106-1108 for the other weapons. |
| CombatProps.BowDrawBlock | src/core/Core.cpp:1100-1105 | On an ended bow draw, the switch block sets the second draw after the first and the held cycle after the second. It uses `ANIM_Set`, which does not loop. Nothing is emitted. |
| CombatProps.BowDrawEnds | src/core/Core.cpp:1100-1105 | Over the whole end pass, the first draw is followed by the second, and the second by the held cycle. Each starts at time 0 without looping, with the player untouched and nothing emitted. |
| CombatProps.ReadyFirstPartEnds | src/core/Core.cpp:1014-1017 | An ended first ready part attaches the weapon to the hand and plays the second part. |
| CombatProps.ReadyEnds | src/core/Core.cpp:998-1030 | An ended final ready animation goes to the looping Wait, clearing INTER_NO_STRIKE, when that bit is set. Otherwise it goes to StrikeStart[strikeDirection]. Either way the timer runs and isHit is cleared. |
| CombatProps.BowReadyEnds | src/core/Core.cpp:1081-1099 | The bow's ended second ready part goes to a non-looping Wait without arrows. With arrows, it goes to a looping Wait clearing INTER_NO_STRIKE when that bit is set, and to the first draw otherwise. The arrow is unlinked in every case. |
| CombatProps.BowReadyBlock | src/core/Core.cpp:1087-1099 | The same, stated about the whole state after the weapon switch block. |
| CombatProps.CastEnds | src/core/Core.cpp:1117-1120 | An ended cast plays the cast end. |
| CombatProps.CastEndFinishes | src/core/Core.cpp:1121-1133 | An ended cast end clears layer 1 and stops the magic. When a return to combat is pending, it also sets INTER_COMBATMODE and INTER_NO_STRIKE, readies the weapon and drops the pending flag. |
| CombatProps.ShieldEndClears | src/core/Core.cpp:1136-1142 | An ended shield end clears layer 3. |
| DebugDraw.NextView | src/graphics/DrawDebug.cpp:111-116 | The next view follows v. It wraps from the last real view to none and is never `DebugViewCount`. |
| DebugDraw.DebugViews.CycleViews | src/graphics/DrawDebug.cpp:111-116 | `g_debugView` becomes the next view and stays a real view. |
| DebugDraw.CycledIsModular | src/graphics/DrawDebug.cpp:93-116 | n presses move from view v to (v + n) mod `DebugViewCount`. |
| DebugDraw.FullCycle | src/graphics/DrawDebug.cpp:93-116 | `DebugViewCount` presses return to the starting view, and fewer presses never do. |
| DebugDraw.DebugRays.DrawRay | src/graphics/DrawDebug.cpp:792-795 | The method appends exactly one ray, expiring at frame start plus duration, and the other rays are unchanged. |
| DebugDraw.DebugRays.ExpireRays | src/graphics/DrawDebug.cpp:805-811 | After the swap-and-pop loop, no expired ray remains. The live rays are kept with their multiplicity, in some order. The length shrinks by exactly the number of expired rays. |
| DebugDraw.SwapPop | src/graphics/DrawDebug.cpp:807-808 | Swap-with-last and pop drops one slot and moves the last ray into slot i. The other slots are unchanged. |
| DebugDraw.SwapPopKeepsLive | src/graphics/DrawDebug.cpp:805-811 | Removing an expired ray by swap-and-pop keeps the multiset of live rays. |
| DebugDraw.LiveMembers | src/graphics/DrawDebug.cpp:805-811 | The live part holds exactly the rays that have not expired. |
| DebugDraw.LiveAndExpired | src/graphics/DrawDebug.cpp:805-811 | Every ray is either live or expired. |
| DebugDraw.PlaceLabel | src/graphics/DrawDebug.cpp:611-621 | The label is centred on the anchor. It is pushed right to keep 5 pixels from the left edge, or else pulled left so that it ends 5 pixels from the right edge. It fits whenever the screen is wide enough. |

## Left out

- Level and application orchestration in `Core.cpp` (level loading, edit mode, the game loop, UI adjustment, new quest, hover text, vision overlay) is not modelled. It only calls into subsystems outside this model.
- The improved bow aim geometry (`Core.cpp` 783-857 and 899-912) is not modelled. This covers the action-point search, the quaternion transforms, the raycasts and the angle interpolation. Each frame supplies the resulting pitch and yaw deltas, and only their clamp to ±90° is modelled.
- The orientation and start position of thrown arrows are not modelled. They come from that geometry.
- Hit, damage and equipment internals are oracle answers in the frame, or logged events:
  - `CheckAnythingInSphere`, `ARX_DAMAGES_TryToDoDamage` and `ARX_EQUIPMENT_Strike_Check` (success of the resolving check, mode 0);
  - `ARX_THROWN_OBJECT_Throw`;
  - `bowZoomFromDuration` (the frame's charge increment);
  - the lowest-durability arrow search, and the action-point lookup (whether the hand has one).
- The follow-up call `ARX_EQUIPMENT_Strike_Check(..., 1)` (`Core.cpp` 641, 693 and 745) is logged as a non-damaging `FollowUpCheck`. Its internals are not part of this model. The engine discards its result, and the one-hit-per-swing lemmas rely on mode 1 producing only secondary effects, never damage.
- `ARX_DAMAGES_DurabilityLoss` and the delayed destruction of an empty quiver are not modelled. The quiver's durability is owned by the inventory.
- Particle sparks and the collision sound are logged as events. Following the code, both happen only when the sphere check found something, and the sound only when the touched entity is valid. The static `lastHit` rate limit is kept, but the platform time and the layer time are compared as plain integers; the unit conversion `toPlatformDuration` is not modelled.
- `Full_AimTime > 0` is required by `CombatSpec.StrikeAimRatio` and by every member that can reach it on any frame:
  - `CombatSpec.MainPass` and the melee and bow functions under it;
  - `PlayerCombat.CombatContext.ManageCombatModeAnimations` and the methods it calls;
  - the lemmas about them.
  The engine divides by it only on a release frame (`Core.cpp` 479). The float division by zero is not modelled, so the model makes no statement about a frame with a zero or negative full aim time.
- Float arithmetic is modelled with exact reals:
  - the launch speed, gravity, damage and the aim ratios;
  - the hit windows, which are compared exactly in integer tenths of the animation time;
  - the half-width of the label, which is truncated toward zero like the engine's cast, with float rounding ignored;
  - the spark count `unsigned(dmgs)` (`Core.cpp` 578), which `CombatSpec.SparkCount` truncates toward zero. A negative damage, whose conversion the engine leaves undefined, gives 0.
- Animation handles are constructors, so two different animations can never compare equal. A handle the catalogue lacks is modelled only where the engine null-checks it: the first ready parts, the cast, the cast end and the shield end. Elsewhere, the engine's comparison of two null handles is left out.
- `changeAnimation` and `ANIM_Set` are unseen. The model's versions start the animation from time 0, drop the end, loop and pause flags, and add the loop flag on request. `AcquireLastAnim` is unseen and left out.
- The per-weapon melee branches of `PlayerCombat.CombatContext.MeleeBranch` are one method taking the weapon type. Their differences (window, tag, latch reset on release, timer on Recover end, flag clearing) are kept as cases.
- Rendering in `DrawDebug.cpp` is not modelled: the ray drawing loop, lights, portals, zones, paths, fogs, collision shapes, entities, materials and text output. None of it keeps state the model can check.
- The ray expiry loop uses a signed index. The engine's unsigned index wraps at `i--` and back at the following `i++`, which gives the same sequence of positions.
- `src/io/IO.h` and `src/gui/hud/PlayerInventory.h` are not part of this model. They hold only declarations.
