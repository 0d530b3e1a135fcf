/**
 * The sequencer as the engine runs it: a context object whose state (the
 * global `player` record, the entity's two animation layers and `isHit`
 * flag, and the statics `LAST_WEAPON_TYPE`, `WILLRETURNTOCOMBATMODE` and the
 * bare-hand strike's `lastHit`) is updated in place, one assignment per
 * assignment of the engine, once per frame. Every method is proved to leave
 * the state and the event log exactly as the matching function of module
 * CombatSpec says.
 */
module PlayerCombat {
  import opened Anims
  import opened CombatSpec

  class CombatContext {
    const catalogue: Catalogue

    /** The sequencer's state, updated field by field as the engine does. */
    var st: Combat

    /** Side effects emitted so far, oldest first. */
    var log: seq<Event>

    /** The state together with the log. */
    function Now(): Ctx
      reads this
    {
      Ctx(st, log)
    }

    /** The state and the log are exactly those of `x`. */
    predicate Did(x: Ctx)
      reads this
    {
      st == x.s && log == x.log
    }

    /** `LAST_WEAPON_TYPE` starts at -1: no weapon has been seen yet. */
    constructor (c: Catalogue, s: Combat)
      ensures catalogue == c && st == s.(lastWeapon := None) && log == []
    {
      catalogue := c;
      st := s.(lastWeapon := None);
      log := [];
    }

    /** `StrikeAimtime`: the strike's charge from the aim timer, clamped to [0.1, 1]. */
    method StrikeAimtime(f: Frame) returns (strong: bool)
      requires f.fullAimTime > 0
      modifies this
      ensures Did(AimStrike(old(Now()), f))
      ensures 0.1 <= st.player.strikeAimRatio <= 1.0
      ensures strong <==> StrongStrike(st.player.strikeAimRatio)
    {
      log := log + [RemoveInvisibility];
      st := st.(player := st.player.(strikeAimRatio := StrikeAimRatio(st.player.aimTime, f.fullAimTime)));
      strong := st.player.strikeAimRatio > 0.8;
    }

    /** `strikeSpeak`: a shout on a strong strike, the weapon's own if it has one. */
    method StrikeSpeak(f: Frame)
      requires f.fullAimTime > 0
      modifies this
      ensures Did(SpeakStrike(old(Now()), f))
    {
      var strong := StrikeAimtime(f);
      if !strong {
        return;
      }
      if f.weaponSpeech.Some? && f.weaponSpeech.value != "" {
        log := log + [Speech(f.weaponSpeech.value)];
      } else if f.playerSpeech != "" {
        log := log + [Speech(f.playerSpeech)];
      }
    }

    /** `ManageNONCombatModeAnimations`: raise, hold and lower the shield on layer 3. */
    method ManageNonCombatModeAnimations(f: Frame)
      modifies this
      ensures Did(Put(old(Now()), ShieldPass(old(st), f)))
    {
      if f.leaning {
        return;
      }
      if f.shieldEquipped && !f.controlsBlocked {
        if st.layer3.cur == None
           || (st.layer3.cur != Some(ShieldCycle) && st.layer3.cur != Some(ShieldHit) && st.layer3.cur != Some(ShieldStart)) {
          st := st.(layer3 := ChangeAnimation(st.layer3, ShieldStart, false));
        } else if st.layer3.cur == Some(ShieldStart) && AnimEnd in st.layer3.flags {
          st := st.(layer3 := ChangeAnimation(st.layer3, ShieldCycle, true));
        }
      } else {
        if st.layer3.cur == Some(ShieldCycle) {
          st := st.(layer3 := ChangeAnimation(st.layer3, ShieldEnd, false));
        } else if st.layer3.cur == Some(ShieldEnd) && AnimEnd in st.layer3.flags {
          st := st.(layer3 := ClearLayer(st.layer3));
        }
      }
    }

    /** `ManageCombatModeAnimations`: one frame of the weapon arm. */
    method ManageCombatModeAnimations(f: Frame)
      requires f.fullAimTime > 0
      modifies this
      ensures Did(MainPass(catalogue, old(Now()), f))
    {
      StartFrameBlocks(f);
      var weapon := f.weapon;
      if weapon == Bow {
        BowBranch(f);
      } else {
        MeleeBranch(weapon, f);
      }
      st := st.(lastWeapon := Some(weapon));
    }

    /** The aim timer runs on; bare hands drawn anew go back to their Wait animation. */
    method StartFrameBlocks(f: Frame)
      modifies this
      ensures Did(Put(old(Now()), StartFrame(old(st), f)))
    {
      if st.player.aimTime > 0 {
        st := st.(player := st.player.(aimTime := st.player.aimTime + f.frameDuration));
      }
      var weapon := f.weapon;
      if weapon == Bare && st.lastWeapon != Some(weapon) {
        if st.layer1.cur != Some(Wait(Bare)) {
          st := st.(layer1 := ChangeAnimation(st.layer1, Wait(Bare), false));
          st := st.(player := st.player.(aimTime := 0));
        }
      }
    }

    /** The branch of a melee weapon: the Wait block, then the loop over the four directions. */
    method MeleeBranch(w: Weapon, f: Frame)
      requires f.fullAimTime > 0 && w != Bow
      modifies this
      ensures Did(MeleePass(catalogue, old(Now()), f, w))
    {
      WaitBlock(w, f);
      ghost var start := Now();
      var j := 0;
      while j < 4
        invariant 0 <= j <= 4
        invariant Did(MeleeLoop(catalogue, start, f, w, j))
      {
        StrikeTurn(w, j, f);
        j := j + 1;
      }
    }

    /** In the melee Wait animation the aim timer is held at zero; a press starts a strike. */
    method WaitBlock(w: Weapon, f: Frame)
      modifies this
      ensures Did(Put(old(Now()), MeleeWait(old(st), f, w)))
    {
      if st.layer1.cur == Some(Wait(w)) {
        st := st.(player := st.player.(aimTime := 0));
        if f.pressed {
          st := st.(layer1 := ChangeAnimation(st.layer1, StrikeStart(w, st.player.strikeDirection), false));
          st := st.(isHit := false);
        }
      }
    }

    /** Turn `j` of the loop: start -> cycle, cycle -> swing on release, the swing itself. */
    method StrikeTurn(w: Weapon, j: Dir, f: Frame)
      requires f.fullAimTime > 0 && w != Bow
      modifies this
      ensures Did(MeleeTurn(catalogue, old(Now()), f, w, j))
    {
      if st.layer1.cur == Some(StrikeStart(w, j)) && AnimEnd in st.layer1.flags {
        st := st.(layer1 := ChangeAnimation(st.layer1, StrikeCycle(w, j), true));
        st := st.(player := st.player.(aimTime := AimRunning));
      } else if st.layer1.cur == Some(StrikeCycle(w, j)) && !f.pressed {
        Release(w, j, f);
      } else if st.layer1.cur == Some(Recover(w, j)) {
        if w == Bare {
          BareSwing(j, f);
        } else {
          WeaponSwing(w, f);
        }
      }
    }

    /** The strike button is up while the strike is held: play the swing, shout, notify scripts. */
    method Release(w: Weapon, j: Dir, f: Frame)
      requires f.fullAimTime > 0
      modifies this
      ensures Did(ReleaseStrike(old(Now()), f, w, j))
    {
      st := st.(layer1 := ChangeAnimation(st.layer1, Recover(w, j), false));
      StrikeSpeak(f);
      log := log + [ScriptStrike(Tag(w))];
      if w == Bare {
        st := st.(player := st.player.(weaponBlocked := Unblocked));
      }
      st := st.(player := st.player.(strikeDirection := 0));
      st := st.(player := st.player.(aimTime := 0));
    }

    /** The bare-hand swing: back to Wait at its end, else the sphere test at the hand. */
    method BareSwing(j: Dir, f: Frame)
      modifies this
      ensures Did(BareRecover(catalogue, old(Now()), f, j))
    {
      if AnimEnd in st.layer1.flags {
        st := st.(layer1 := ChangeAnimation(st.layer1, Wait(Bare), true));
        st := st.(player := st.player.(strikeDirection := 0));
        st := st.(player := st.player.(aimTime := AimRunning));
        st := st.(player := st.player.(weaponBlocked := Unblocked));
      } else if InHitWindow(Bare, st.layer1.ctime, AnimTime(catalogue, st.layer1))
                && st.player.weaponBlocked == Unblocked {
        var attach := if j == 0 then f.leftAttach else f.primaryAttach;
        if attach && f.sphereHit {
          var damage := FistDamage(f, st.player.strikeAimRatio);
          log := log + [TryDamage(damage, f.damageDone)];
          if f.damageDone {
            st := st.(player := st.player.(weaponBlocked := st.layer1.ctime));
          }
          log := log + [Sparks(SparkCount(damage))];
          if f.targetValid && f.now - st.lastHitSound > st.layer1.ctime {
            log := log + [CollisionSound];
            st := st.(lastHitSound := f.now);
          }
        }
      }
    }

    /** The dagger, one- and two-handed swing: resolving check, end of swing, follow-up check. */
    method WeaponSwing(w: Weapon, f: Frame)
      modifies this
      ensures Did(WeaponRecover(catalogue, old(Now()), f, w))
    {
      StrikeCheckBlock(w, f);
      SwingEndBlock(w);
      FollowUpBlock();
    }

    /** Inside the window and while no hit was resolved, ask whether the weapon hit; latch a hit. */
    method StrikeCheckBlock(w: Weapon, f: Frame)
      modifies this
      ensures Did(ResolveStrike(catalogue, old(Now()), f, w))
    {
      if InHitWindow(w, st.layer1.ctime, AnimTime(catalogue, st.layer1)) {
        if st.player.weaponBlocked == Unblocked {
          log := log + [StrikeCheck(f.strikeHit)];
          if f.strikeHit {
            st := st.(player := st.player.(weaponBlocked := st.layer1.ctime));
          }
        }
      }
    }

    /** The swing has ended: back to Wait. */
    method SwingEndBlock(w: Weapon)
      modifies this
      ensures Did(SwingEnd(old(Now()), w))
    {
      if AnimEnd in st.layer1.flags {
        st := st.(layer1 := ChangeAnimation(st.layer1, Wait(w), true));
        st := st.(layer1 := st.layer1.(flags := st.layer1.flags - {Paused, Reverse}));
        st := st.(player := st.player.(strikeDirection := 0));
        st := st.(player := st.player.(aimTime := RecoverEndAimTime(w)));
        st := st.(player := st.player.(weaponBlocked := Unblocked));
      }
    }

    /** A hit was resolved and the animation is not yet at 90%: the follow-up check. */
    method FollowUpBlock()
      modifies this
      ensures Did(FollowUp(catalogue, old(Now())))
    {
      if st.player.weaponBlocked != Unblocked && 10 * st.layer1.ctime < 9 * AnimTime(catalogue, st.layer1) {
        log := log + [FollowUpCheck];
      }
    }

    /** The bow branch: charge while drawn, draw on press, release on button up. */
    method BowBranch(f: Frame)
      requires f.fullAimTime > 0
      modifies this
      ensures Did(BowPass(old(Now()), f))
    {
      if st.layer1.cur == Some(BowCycle) {
        st := st.(player := st.player.(bowAimRatio := st.player.bowAimRatio + f.bowZoom));
        if st.player.bowAimRatio > 1.0 {
          st := st.(player := st.player.(bowAimRatio := 1.0));
        }
      } else {
        st := st.(player := st.player.(bowAimRotation := NoRotation));
      }
      if st.layer1.cur == Some(Wait(Bow)) {
        st := st.(player := st.player.(aimTime := AimRunning));
        if f.pressed && f.quiver.Some? {
          st := st.(layer1 := ChangeAnimation(st.layer1, BowDraw1, false));
          st := st.(isHit := false);
        }
      }
      if st.layer1.cur == Some(BowDraw1) && AnimEnd in st.layer1.flags {
        st := st.(player := st.player.(aimTime := 0));
        st := st.(layer1 := ChangeAnimation(st.layer1, BowDraw2, false));
        log := log + [LinkArrow];
      }
      BowDrawnBlocks(f);
    }

    /** The bow blocks after the arrow is nocked: full draw, aim, release, back to Wait. */
    method BowDrawnBlocks(f: Frame)
      requires f.fullAimTime > 0
      modifies this
      ensures Did(BowDrawn(old(Now()), f))
    {
      if st.layer1.cur == Some(BowDraw2) && AnimEnd in st.layer1.flags {
        st := st.(layer1 := ChangeAnimation(st.layer1, BowCycle, true));
        st := st.(player := st.player.(aimTime := AimRunning));
      } else if st.layer1.cur == Some(BowCycle) {
        if f.improvedBowAim {
          st := st.(player := st.player.(bowAimRotation := AimRotation(st.player.bowAimRotation, f)));
        }
        if !f.pressed {
          LaunchArrow(f);
        }
      } else if st.layer1.cur == Some(BowRelease) {
        st := st.(player := st.player.(bowAimRatio := st.player.bowAimRatio - f.bowZoom));
        if st.player.bowAimRatio < 0.0 {
          st := st.(player := st.player.(bowAimRatio := 0.0));
        }
        if AnimEnd in st.layer1.flags {
          st := st.(player := st.player.(bowAimRatio := 0.0));
          st := st.(layer1 := ChangeAnimation(st.layer1, Wait(Bow), true));
          st := st.(player := st.player.(aimTime := 0));
          st := st.(player := st.player.(weaponBlocked := Unblocked));
          log := log + [UnlinkArrow];
        }
      }
    }

    /** The arrow leaves: the release animation, the quiver's bookkeeping, then the throw. */
    method LaunchArrow(f: Frame)
      requires f.fullAimTime > 0
      modifies this
      ensures Did(BowLaunch(old(Now()), f))
    {
      log := log + [UnlinkArrow];
      st := st.(layer1 := ChangeAnimation(st.layer1, BowRelease, false));
      log := log + [ScriptStrike(Tag(Bow))];
      var strong := StrikeAimtime(f);
      st := st.(player := st.player.(strikeAimRatio := st.player.bowAimRatio));
      var poisonous := 0.0;
      if f.quiver.Some? {
        var quiver := f.quiver.value;
        poisonous := quiver.poisonous;
        if quiver.poisonousCount > 0 {
          quiver := quiver.(poisonousCount := quiver.poisonousCount - 1);
          if quiver.poisonousCount <= 0 {
            quiver := quiver.(poisonous := 0.0);
          }
        }
        log := log + [SpendArrow(quiver)];
      }
      if f.multiShot && poisonous < 3.0 {
        poisonous := 3.0;
      }
      if !f.arrowModelOk {
        return;
      }
      Loosen(f, poisonous);
    }

    /** The arrow model is ready: one throw, or five with the multiple-shot flag. */
    method Loosen(f: Frame, poisonous: real)
      modifies this
      ensures Did(Loose(old(Now()), f, poisonous))
    {
      var aim := st.player.strikeAimRatio;
      var damage := ArrowDamage(f);
      log := log + [Shot(aim, 0.0, damage, poisonous)];
      if f.multiShot {
        ghost var before := log;
        var i := -2;
        while i <= 2
          invariant -2 <= i <= 3
          invariant log == before + SideShots(aim, damage, poisonous, i)
          invariant st == old(st)
        {
          if i != 0 {
            log := log + [Shot(aim, SideShotYaw(i), damage, poisonous)];
          }
          i := i + 1;
        }
      }
      st := st.(player := st.player.(aimTime := 0));
    }

    /** `ManageCombatModeAnimationsEND`: ready, unready, cast and shield endings. */
    method ManageCombatModeAnimationsEnd(f: Frame)
      modifies this
      ensures Did(EndPass(catalogue, old(Now()), f))
    {
      if st.layer1.cur.Some? && IsReady(st.layer1.cur.value) {
        st := st.(player := st.player.(aimTime := AimRunning));
      }
      if AnimEnd in st.layer1.flags {
        if st.layer1.cur.Some? && IsUnreadyEnd(st.layer1.cur.value) {
          st := st.(layer1 := ClearLayer(st.layer1));
        }
        ReadyEnding(f);
        CastEnding();
      }
      if AnimEnd in st.layer3.flags {
        if ShieldEnd in catalogue.loaded && st.layer3.cur == Some(ShieldEnd) {
          st := st.(layer3 := ClearLayer(st.layer3));
        }
      }
    }

    /** The weapon switch of the END pass. */
    method ReadyEnding(f: Frame)
      modifies this
      ensures Did(ReadyEnd(catalogue, old(Now()), f))
    {
      var w := f.weapon;
      if w == Bare {
        if st.layer1.cur == Some(BareReady) {
          ReadyToFight(Bare);
        }
        return;
      }
      if ReadyPart1(w) !in catalogue.loaded {
        return;
      }
      if st.layer1.cur == Some(ReadyPart1(w)) {
        log := log + [AttachToHand];
        st := st.(layer1 := ChangeAnimation(st.layer1, ReadyPart2(w), false));
      } else if st.layer1.cur == Some(ReadyPart2(w)) {
        if w != Bow {
          ReadyToFight(w);
        } else {
          if f.quiver.Some? {
            if NoStrike in st.player.interface {
              st := st.(player := st.player.(interface := st.player.interface - {NoStrike}));
              st := st.(layer1 := ChangeAnimation(st.layer1, Wait(Bow), true));
            } else {
              st := st.(layer1 := ChangeAnimation(st.layer1, BowDraw1, false));
            }
            st := st.(isHit := false);
          } else {
            st := st.(layer1 := ChangeAnimation(st.layer1, Wait(Bow), false));
          }
          log := log + [UnlinkArrow];
        }
      } else if w == Bow && st.layer1.cur == Some(BowDraw1) {
        st := st.(layer1 := SetAnimation(st.layer1, BowDraw2));
      } else if w == Bow && st.layer1.cur == Some(BowDraw2) {
        st := st.(layer1 := SetAnimation(st.layer1, BowCycle));
      } else if st.layer1.cur == Some(UnreadyPart1(w)) {
        log := log + [AttachToBack];
        st := st.(layer1 := ChangeAnimation(st.layer1, UnreadyPart2(w), false));
      }
    }

    /** The end of ready part 2 (or of the bare-hand ready). */
    method ReadyToFight(w: Weapon)
      modifies this
      ensures Did(Put(old(Now()), FinishReady(old(st), w)))
    {
      if NoStrike in st.player.interface {
        st := st.(player := st.player.(interface := st.player.interface - {NoStrike}));
        st := st.(layer1 := ChangeAnimation(st.layer1, Wait(w), true));
      } else {
        st := st.(layer1 := ChangeAnimation(st.layer1, StrikeStart(w, st.player.strikeDirection), false));
      }
      st := st.(player := st.player.(aimTime := AimRunning));
      st := st.(isHit := false);
    }

    /** Cast -> cast end -> empty layer, possibly back into combat mode. */
    method CastEnding()
      modifies this
      ensures Did(CastFinish(catalogue, old(Now())))
    {
      if Cast in catalogue.loaded && st.layer1.cur == Some(Cast) {
        if CastEnd in catalogue.loaded {
          st := st.(layer1 := ChangeAnimation(st.layer1, CastEnd, false));
        }
      } else if CastEnd in catalogue.loaded && st.layer1.cur == Some(CastEnd) {
        st := st.(layer1 := ClearLayer(st.layer1));
        st := st.(player := st.player.(doingMagic := 0));
        if st.willReturnToCombat {
          st := st.(player := st.player.(interface := st.player.interface + {CombatMode}));
          st := st.(player := st.player.(interface := st.player.interface + {NoStrike}));
          log := log + [LaunchReadyWeapon];
          st := st.(willReturnToCombat := false);
        }
      }
    }
  }
}
