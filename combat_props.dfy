/**
 * What the combat sequencer guarantees, stated about the functions of
 * module CombatSpec (which the class in module PlayerCombat is proved to
 * follow). Each lemma runs one pass on a state whose log is empty, so the
 * log of the result is exactly what that pass emitted.
 */
module CombatProps {
  import opened Anims
  import opened CombatSpec

  // ---- Aim ratio and strike speech ----

  /** `StrikeAimtime` keeps the ratio in [0.1, 1] and emits nothing but the end of invisibility. */
  lemma AimRatioBounded(x: Ctx, f: Frame)
    requires f.fullAimTime > 0
    ensures var y := AimStrike(x, f);
      0.1 <= y.s.player.strikeAimRatio <= 1.0 && y.log == x.log + [RemoveInvisibility]
      && y.s == x.s.(player := y.s.player)
      && y.s.player == x.s.player.(strikeAimRatio := y.s.player.strikeAimRatio)
  {
  }

  /** `strikeSpeak` speaks exactly when the strike is strong and some speech is set. */
  lemma SpeechOnlyWhenStrong(x: Ctx, f: Frame)
    requires f.fullAimTime > 0
    ensures var a := AimStrike(x, f); var y := SpeakStrike(x, f);
      y.s == a.s
      && (StrongStrike(a.s.player.strikeAimRatio) && StrikeSpeechOf(f).Some?
          ==> y.log == a.log + [Speech(StrikeSpeechOf(f).value)])
      && (!StrongStrike(a.s.player.strikeAimRatio) || StrikeSpeechOf(f).None? ==> y.log == a.log)
  {
  }

  // ---- Melee: the loop over the four strike directions ----

  /** The layer plays one of the three animations turn `k` of the melee loop looks at. */
  predicate Touches(l: Layer, w: Weapon, k: Dir) {
    Playing(l, StrikeStart(w, k)) || Playing(l, StrikeCycle(w, k)) || Playing(l, Recover(w, k))
  }

  /** A turn whose direction the layer does not play changes nothing. */
  lemma TurnElsewhere(c: Catalogue, x: Ctx, f: Frame, w: Weapon, k: Dir)
    requires f.fullAimTime > 0 && w != Bow && !Touches(x.s.layer1, w, k)
    ensures MeleeTurn(c, x, f, w, k) == x
  {
  }

  /** If no turn before `n` applies, the first `n` turns change nothing. */
  lemma {:induction false} LoopQuiet(c: Catalogue, x: Ctx, f: Frame, w: Weapon, n: nat)
    requires f.fullAimTime > 0 && w != Bow && n <= 4
    requires forall k: Dir :: k < n ==> !Touches(x.s.layer1, w, k)
    ensures MeleeLoop(c, x, f, w, n) == x
  {
    if n > 0 {
      LoopQuiet(c, x, f, w, n - 1);
      TurnElsewhere(c, x, f, w, n - 1);
    }
  }

  /**
   * When the layer plays an animation of direction `j` only, the loop does
   * exactly turn `j`, provided what that turn leaves is not picked up by a
   * later turn.
   */
  lemma {:induction false} LoopDoesTurn(c: Catalogue, x: Ctx, f: Frame, w: Weapon, j: Dir, n: nat)
    requires f.fullAimTime > 0 && w != Bow && j < n <= 4
    requires forall k: Dir :: k != j ==> !Touches(x.s.layer1, w, k)
    requires forall k: Dir :: j < k ==> !Touches(MeleeTurn(c, x, f, w, j).s.layer1, w, k)
    ensures MeleeLoop(c, x, f, w, n) == MeleeTurn(c, x, f, w, j)
  {
    if n == j + 1 {
      LoopQuiet(c, x, f, w, j);
    } else {
      LoopDoesTurn(c, x, f, w, j, n - 1);
      TurnElsewhere(c, MeleeTurn(c, x, f, w, j), f, w, n - 1);
    }
  }

  /** Unless the frame switches to bare hands, the opening blocks only advance the aim timer. */
  lemma SteadyStart(s: Combat, f: Frame)
    requires f.weapon == Bare ==> s.lastWeapon == Some(Bare)
    ensures StartFrame(s, f) == s.(player := StartFrame(s, f).player)
    ensures StartFrame(s, f).player == s.player.(aimTime := StartFrame(s, f).player.aimTime)
  {
  }

  /** The conditions of a melee frame that does not switch to bare hands. */
  predicate MeleeFrame(s: Combat, f: Frame) {
    f.fullAimTime > 0 && f.weapon != Bow && (f.weapon == Bare ==> s.lastWeapon == Some(Bare))
  }

  /** A melee frame is its Wait block and then the loop, after the timer advance. */
  lemma MeleeFrameUnfolds(c: Catalogue, s: Combat, f: Frame)
    requires MeleeFrame(s, f)
    ensures var s1 := StartFrame(s, f);
      MainPass(c, Ctx(s, []), f) == (var y := MeleePass(c, Ctx(s1, []), f, f.weapon); Ctx(y.s.(lastWeapon := Some(f.weapon)), y.log))
      && s1.layer1 == s.layer1 && s1.isHit == s.isHit && s1.player == s.player.(aimTime := s1.player.aimTime)
  {
    SteadyStart(s, f);
  }

  /** A melee frame whose layer plays an animation of direction `j` is turn `j` alone. */
  lemma MeleeFrameTurn(c: Catalogue, s: Combat, f: Frame, j: Dir)
    requires MeleeFrame(s, f) && !Playing(s.layer1, Wait(f.weapon))
    requires forall k: Dir :: k != j ==> !Touches(s.layer1, f.weapon, k)
    requires forall k: Dir :: j < k ==> !Touches(MeleeTurn(c, Ctx(StartFrame(s, f), []), f, f.weapon, j).s.layer1, f.weapon, k)
    ensures var y := MeleeTurn(c, Ctx(StartFrame(s, f), []), f, f.weapon, j);
      MainPass(c, Ctx(s, []), f) == Ctx(y.s.(lastWeapon := Some(f.weapon)), y.log)
  {
    MeleeFrameUnfolds(c, s, f);
    var s1 := StartFrame(s, f);
    assert MeleeWait(s1, f, f.weapon) == s1;
    LoopDoesTurn(c, Ctx(s1, []), f, f.weapon, j, 4);
  }

  /** Wait with the button pressed: the strike starts in the chosen direction. */
  lemma StrikeBegins(c: Catalogue, s: Combat, f: Frame)
    requires MeleeFrame(s, f) && Playing(s.layer1, Wait(f.weapon)) && f.pressed
    ensures var y := MainPass(c, Ctx(s, []), f);
      y.s.layer1 == ChangeAnimation(s.layer1, StrikeStart(f.weapon, s.player.strikeDirection), false)
      && !y.s.isHit && y.s.player.aimTime == 0 && y.log == []
      && y.s.player == s.player.(aimTime := 0)
  {
    MeleeFrameUnfolds(c, s, f);
    var w := f.weapon;
    var x0 := Ctx(MeleeWait(StartFrame(s, f), f, w), []);
    LoopDoesTurn(c, x0, f, w, s.player.strikeDirection, 4);
  }

  /** Wait with the button up: the weapon stays ready and the aim timer stays stopped. */
  lemma WaitIdles(c: Catalogue, s: Combat, f: Frame)
    requires MeleeFrame(s, f) && Playing(s.layer1, Wait(f.weapon)) && !f.pressed
    ensures var y := MainPass(c, Ctx(s, []), f);
      y.s == s.(player := s.player.(aimTime := 0), lastWeapon := Some(f.weapon)) && y.log == []
  {
    MeleeFrameUnfolds(c, s, f);
    var w := f.weapon;
    var x0 := Ctx(MeleeWait(StartFrame(s, f), f, w), []);
    LoopQuiet(c, x0, f, w, 4);
  }

  /** StrikeStart[j] has played out: the strike is held in the looping StrikeCycle[j]. */
  lemma StrikeHeld(c: Catalogue, s: Combat, f: Frame, j: Dir)
    requires MeleeFrame(s, f) && Playing(s.layer1, StrikeStart(f.weapon, j)) && Ended(s.layer1)
    ensures var y := MainPass(c, Ctx(s, []), f);
      y.s.layer1 == ChangeAnimation(s.layer1, StrikeCycle(f.weapon, j), true)
      && Loop in y.s.layer1.flags
      && y.s.player == s.player.(aimTime := AimRunning) && y.s.isHit == s.isHit && y.log == []
  {
    MeleeFrameTurn(c, s, f, j);
  }

  /** StrikeCycle[j] with the button still pressed: nothing but the aim timer moves. */
  lemma StrikeCharging(c: Catalogue, s: Combat, f: Frame, j: Dir)
    requires MeleeFrame(s, f) && Playing(s.layer1, StrikeCycle(f.weapon, j)) && f.pressed
    ensures var y := MainPass(c, Ctx(s, []), f);
      y.s == StartFrame(s, f).(lastWeapon := Some(f.weapon)) && y.log == []
  {
    MeleeFrameTurn(c, s, f, j);
  }

  /**
   * StrikeCycle[j] with the button released: the swing Recover[j] starts
   * (never Wait directly), with exactly one SM_STRIKE event, tagged by the
   * weapon, as the last event, and no damaging check lands; the direction
   * and the aim timer are reset, and bare hands also clear the hit latch.
   */
  lemma StrikeReleased(c: Catalogue, s: Combat, f: Frame, j: Dir)
    requires MeleeFrame(s, f) && Playing(s.layer1, StrikeCycle(f.weapon, j)) && !f.pressed
    ensures var y := MainPass(c, Ctx(s, []), f);
      y.s.layer1 == ChangeAnimation(s.layer1, Recover(f.weapon, j), false)
      && !Playing(y.s.layer1, Wait(f.weapon))
      && |y.log| >= 2 && y.log[0] == RemoveInvisibility && y.log[|y.log| - 1] == ScriptStrike(Tag(f.weapon))
      && (forall i :: 0 <= i < |y.log| - 1 ==> !y.log[i].ScriptStrike?)
      && y.s.player.strikeDirection == 0 && y.s.player.aimTime == 0
      && 0.1 <= y.s.player.strikeAimRatio <= 1.0
      && y.s.player.weaponBlocked == (if f.weapon == Bare then Unblocked else s.player.weaponBlocked)
      && Hits(y.log) == 0
  {
    SteadyStart(s, f);
    var x := Ctx(StartFrame(s, f), []);
    assert MeleeTurn(c, x, f, f.weapon, j) == ReleaseStrike(x, f, f.weapon, j);
    ReleaseStrikeEmits(x, f, f.weapon, j);
    MeleeFrameTurn(c, s, f, j);
  }

  /** The release block: the swing, the aim, the speech, the one SM_STRIKE event last, and no hit. */
  lemma ReleaseStrikeEmits(x: Ctx, f: Frame, w: Weapon, j: Dir)
    requires x.log == [] && f.fullAimTime > 0
    ensures var y := ReleaseStrike(x, f, w, j);
      y.s.layer1 == ChangeAnimation(x.s.layer1, Recover(w, j), false)
      && |y.log| >= 2 && y.log[0] == RemoveInvisibility && y.log[|y.log| - 1] == ScriptStrike(Tag(w))
      && (forall i :: 0 <= i < |y.log| - 1 ==> !y.log[i].ScriptStrike?)
      && y.s.player.strikeDirection == 0 && y.s.player.aimTime == 0
      && 0.1 <= y.s.player.strikeAimRatio <= 1.0
      && y.s.player.weaponBlocked == (if w == Bare then Unblocked else x.s.player.weaponBlocked)
      && Hits(y.log) == 0
  {
    var x1 := Put(x, x.s.(layer1 := ChangeAnimation(x.s.layer1, Recover(w, j), false)));
    SpeechOnlyWhenStrong(x1, f);
    var log := ReleaseStrike(x, f, w, j).log;
    assert forall i :: 0 <= i < |log| ==> log[i] == RemoveInvisibility || log[i].Speech? || log[i].ScriptStrike?;
    NoChecksNoHits(log);
  }

  // ---- Melee: one hit per swing ----

  /** A check that may hurt something: the bare-hand damage attempt or the weapon's strike check. */
  predicate DamagingCheck(e: Event) {
    e.TryDamage? || e.StrikeCheck?
  }

  /** A damaging check that landed. */
  predicate Landed(e: Event) {
    (e.TryDamage? && e.done) || (e.StrikeCheck? && e.hit)
  }

  /** The number of landed checks in a log. */
  function Hits(log: seq<Event>): (n: nat)
    ensures n <= |log|
  {
    if log == [] then 0 else Hits(log[..|log| - 1]) + (if Landed(log[|log| - 1]) then 1 else 0)
  }

  lemma {:induction false} HitsAppend(a: seq<Event>, b: seq<Event>)
    ensures Hits(a + b) == Hits(a) + Hits(b)
    decreases |b|
  {
    if b == [] {
      assert a + b == a;
    } else {
      var ab := a + b;
      assert ab[..|ab| - 1] == a + b[..|b| - 1];
      assert ab[|ab| - 1] == b[|b| - 1];
      HitsAppend(a, b[..|b| - 1]);
    }
  }

  /** A log without damaging checks has no hits. */
  lemma {:induction false} NoChecksNoHits(log: seq<Event>)
    requires forall i :: 0 <= i < |log| ==> !DamagingCheck(log[i])
    ensures Hits(log) == 0
  {
    if log != [] {
      NoChecksNoHits(log[..|log| - 1]);
    }
  }

  /** The hit window compared in tenths is the window as fractions of the animation. */
  lemma HitWindowFractions(w: Weapon, ctime: int, duration: int)
    ensures w == Bare ==> (InHitWindow(w, ctime, duration) <==>
      0.2 * (duration as real) < ctime as real < 0.8 * (duration as real))
    ensures w != Bare ==> (InHitWindow(w, ctime, duration) <==>
      0.3 * (duration as real) < ctime as real < 0.7 * (duration as real))
  {
  }

  /** The swing of the frame: Recover[j] plays and has not ended. */
  predicate Swinging(s: Combat, f: Frame, j: Dir) {
    MeleeFrame(s, f) && Playing(s.layer1, Recover(f.weapon, j)) && !Ended(s.layer1)
  }

  /** What one frame of a swing may emit: no damaging check, or one inside the window while the latch is open. */
  predicate ChecksOnlyWhenOpen(c: Catalogue, s: Combat, w: Weapon, log: seq<Event>) {
    (forall i :: 0 <= i < |log| ==> !DamagingCheck(log[i]))
    || (s.player.weaponBlocked == Unblocked && InHitWindow(w, s.layer1.ctime, AnimTime(c, s.layer1)))
  }

  /** The latch after one frame of a swing: closed at the layer time by a hit, untouched otherwise. */
  predicate LatchesOnHit(s: Combat, t: Combat, log: seq<Event>) {
    Hits(log) <= 1
    && (Hits(log) == 1 ==> t.player.weaponBlocked == s.layer1.ctime && s.layer1.ctime > 0)
    && (Hits(log) == 0 ==> t.player.weaponBlocked == s.player.weaponBlocked)
  }

  /** The bare-hand swing block on a layer that has not ended. */
  lemma BareRecoverSwing(c: Catalogue, x: Ctx, f: Frame, j: Dir)
    requires x.log == [] && !Ended(x.s.layer1)
    ensures var y := BareRecover(c, x, f, j);
      y.s.layer1 == x.s.layer1 && y.s.lastWeapon == x.s.lastWeapon
      && ChecksOnlyWhenOpen(c, x.s, Bare, y.log) && LatchesOnHit(x.s, y.s, y.log)
  {
    var q := x.s.player;
    var l := x.s.layer1;
    var attach := if j == 0 then f.leftAttach else f.primaryAttach;
    if InHitWindow(Bare, l.ctime, AnimTime(c, l)) && q.weaponBlocked == Unblocked && attach && f.sphereHit {
      BareHitLatches(x, f, FistDamage(f, q.strikeAimRatio));
    }
  }

  /** What a blow that touched something emits: the damage attempt, the sparks, maybe the collision sound. */
  lemma BareHitEvents(x: Ctx, f: Frame, damage: real)
    requires x.log == []
    ensures var y := BareHit(x, f, damage); var e := TryDamage(damage, f.damageDone);
      y.log == [e, Sparks(SparkCount(damage))] || y.log == [e, Sparks(SparkCount(damage)), CollisionSound]
  {
  }

  /** A blow that touched something: one damage attempt, which latches the swing when it lands. */
  lemma BareHitLatches(x: Ctx, f: Frame, damage: real)
    requires x.log == []
    ensures var y := BareHit(x, f, damage);
      y.s.layer1 == x.s.layer1 && y.s.lastWeapon == x.s.lastWeapon
      && |y.log| >= 1 && y.log[0] == TryDamage(damage, f.damageDone)
      && Hits(y.log) == (if f.damageDone then 1 else 0)
      && y.s.player.weaponBlocked == (if f.damageDone then x.s.layer1.ctime else x.s.player.weaponBlocked)
      && (forall i :: 0 <= i < |y.log| && DamagingCheck(y.log[i]) ==> i == 0)
  {
    var log := BareHit(x, f, damage).log;
    var e := TryDamage(damage, f.damageDone);
    BareHitEvents(x, f, damage);
    var rest := log[1..];
    var sparks := Sparks(SparkCount(damage));
    assert rest == [sparks] || rest == [sparks, CollisionSound];
    assert log == [e] + rest;
    HitsAppend([e], rest);
    NoChecksNoHits(rest);
    assert Hits([e]) == Hits([]) + (if Landed(e) then 1 else 0);
  }

  /** Appending an event that is no damaging check adds no damaging check. */
  lemma QuietAppend(log: seq<Event>, e: Event)
    requires !DamagingCheck(e)
    ensures (forall i :: 0 <= i < |log + [e]| ==> !DamagingCheck((log + [e])[i]))
            <==> (forall i :: 0 <= i < |log| ==> !DamagingCheck(log[i]))
  {
    if forall i :: 0 <= i < |log| ==> !DamagingCheck(log[i]) {
      forall i | 0 <= i < |log + [e]| ensures !DamagingCheck((log + [e])[i]) {
        if i < |log| { assert (log + [e])[i] == log[i]; }
      }
    } else {
      var i :| 0 <= i < |log| && DamagingCheck(log[i]);
      assert (log + [e])[i] == log[i];
    }
  }

  /** The resolving strike check of a swing: only inside the window, latched by a hit. */
  lemma ResolveStrikeLatches(c: Catalogue, x: Ctx, f: Frame, w: Weapon)
    requires x.log == []
    ensures var r := ResolveStrike(c, x, f, w);
      r.s.layer1 == x.s.layer1 && r.s.lastWeapon == x.s.lastWeapon
      && ChecksOnlyWhenOpen(c, x.s, w, r.log) && LatchesOnHit(x.s, r.s, r.log)
      && FollowUpCheck !in r.log
  {
    var l := x.s.layer1;
    if InHitWindow(w, l.ctime, AnimTime(c, l)) && x.s.player.weaponBlocked == Unblocked {
      var e := StrikeCheck(f.strikeHit);
      assert Hits([e]) == Hits([]) + (if Landed(e) then 1 else 0);
    }
  }

  /** The follow-up check adds no damaging check and changes no state. */
  lemma FollowUpAddsNoHit(c: Catalogue, r: Ctx)
    ensures var y := FollowUp(c, r);
      y.s == r.s && Hits(y.log) == Hits(r.log)
      && ((forall i :: 0 <= i < |r.log| ==> !DamagingCheck(r.log[i])) ==>
          (forall i :: 0 <= i < |y.log| ==> !DamagingCheck(y.log[i])))
      && (FollowUpCheck in y.log <==>
            (FollowUpCheck in r.log
             || (r.s.player.weaponBlocked != Unblocked && 10 * r.s.layer1.ctime < 9 * AnimTime(c, r.s.layer1))))
  {
    var y := FollowUp(c, r);
    if y != r {
      HitsAppend(r.log, [FollowUpCheck]);
      assert Hits([FollowUpCheck]) == Hits([]);
      QuietAppend(r.log, FollowUpCheck);
    }
  }

  /** The dagger, one- and two-handed swing block on a layer that has not ended. */
  lemma WeaponRecoverSwing(c: Catalogue, x: Ctx, f: Frame, w: Weapon)
    requires x.log == [] && !Ended(x.s.layer1)
    ensures var y := WeaponRecover(c, x, f, w);
      y.s.layer1 == x.s.layer1 && y.s.lastWeapon == x.s.lastWeapon
      && ChecksOnlyWhenOpen(c, x.s, w, y.log) && LatchesOnHit(x.s, y.s, y.log)
      && (FollowUpCheck in y.log <==>
            y.s.player.weaponBlocked != Unblocked && 10 * x.s.layer1.ctime < 9 * AnimTime(c, x.s.layer1))
  {
    var r := ResolveStrike(c, x, f, w);
    ResolveStrikeLatches(c, x, f, w);
    assert SwingEnd(r, w) == r;
    FollowUpAddsNoHit(c, r);
  }

  /** The swing block of the weapon of the frame. */
  function RecoverBlock(c: Catalogue, x: Ctx, f: Frame, j: Dir): Ctx {
    if f.weapon == Bare then BareRecover(c, x, f, j) else WeaponRecover(c, x, f, f.weapon)
  }

  /** A frame inside a swing is the swing block alone, when that block keeps the layer. */
  lemma SwingFrameIsBlock(c: Catalogue, s: Combat, f: Frame, j: Dir)
    requires Swinging(s, f, j)
    requires RecoverBlock(c, Ctx(StartFrame(s, f), []), f, j).s.layer1 == s.layer1
    ensures var t := RecoverBlock(c, Ctx(StartFrame(s, f), []), f, j);
      MainPass(c, Ctx(s, []), f) == Ctx(t.s.(lastWeapon := Some(f.weapon)), t.log)
  {
    SteadyStart(s, f);
    var x := Ctx(StartFrame(s, f), []);
    assert MeleeTurn(c, x, f, f.weapon, j) == RecoverBlock(c, x, f, j);
    MeleeFrameTurn(c, s, f, j);
  }

  /**
   * One frame inside a bare-hand swing: a damage attempt only inside the
   * window and while the latch is open; at most one blow lands, and it closes
   * the latch at the current layer time; the layer is untouched.
   */
  lemma BareSwingFrame(c: Catalogue, s: Combat, f: Frame, j: Dir)
    requires Swinging(s, f, j) && f.weapon == Bare
    ensures var y := MainPass(c, Ctx(s, []), f);
      y.s.layer1 == s.layer1 && y.s.lastWeapon == Some(f.weapon)
      && ChecksOnlyWhenOpen(c, s, Bare, y.log) && LatchesOnHit(s, y.s, y.log)
  {
    SteadyStart(s, f);
    var x := Ctx(StartFrame(s, f), []);
    BareRecoverSwing(c, x, f, j);
    SwingFrameIsBlock(c, s, f, j);
  }

  /**
   * One frame inside a dagger, one- or two-handed swing: the strike check
   * only inside the window and while the latch is open, at most one hit,
   * which closes the latch; the follow-up check exactly when the latch is
   * closed before 90% of the animation.
   */
  lemma WeaponSwingFrame(c: Catalogue, s: Combat, f: Frame, j: Dir)
    requires Swinging(s, f, j) && f.weapon != Bare
    ensures var y := MainPass(c, Ctx(s, []), f);
      y.s.layer1 == s.layer1 && y.s.lastWeapon == Some(f.weapon)
      && ChecksOnlyWhenOpen(c, s, f.weapon, y.log) && LatchesOnHit(s, y.s, y.log)
      && (FollowUpCheck in y.log <==>
            y.s.player.weaponBlocked != Unblocked && 10 * s.layer1.ctime < 9 * AnimTime(c, s.layer1))
  {
    SteadyStart(s, f);
    var x := Ctx(StartFrame(s, f), []);
    WeaponRecoverSwing(c, x, f, f.weapon);
    SwingFrameIsBlock(c, s, f, j);
  }

  /** A bare-hand swing has played out: back to the looping Wait, timer running, latch open. */
  lemma BareSwingEnds(c: Catalogue, s: Combat, f: Frame, j: Dir)
    requires MeleeFrame(s, f) && f.weapon == Bare && Playing(s.layer1, Recover(Bare, j)) && Ended(s.layer1)
    ensures var y := MainPass(c, Ctx(s, []), f);
      y.s.layer1 == ChangeAnimation(s.layer1, Wait(Bare), true) && Loop in y.s.layer1.flags
      && y.s.player == s.player.(strikeDirection := 0, aimTime := AimRunning, weaponBlocked := Unblocked)
      && y.log == []
  {
    MeleeFrameTurn(c, s, f, j);
  }

  /**
   * A dagger, one- or two-handed swing has played out: back to the looping
   * Wait, unpaused and forwards, latch open, direction reset; the aim timer
   * keeps running for the dagger only; no follow-up check on that frame.
   */
  lemma WeaponSwingEnds(c: Catalogue, s: Combat, f: Frame, j: Dir)
    requires MeleeFrame(s, f) && f.weapon != Bare && Playing(s.layer1, Recover(f.weapon, j)) && Ended(s.layer1)
    ensures var y := MainPass(c, Ctx(s, []), f);
      Playing(y.s.layer1, Wait(f.weapon)) && y.s.layer1.ctime == 0
      && y.s.layer1.flags == s.layer1.flags - {AnimEnd, Paused, Reverse} + {Loop}
      && y.s.player.strikeDirection == 0 && y.s.player.weaponBlocked == Unblocked
      && y.s.player.aimTime == (if f.weapon == Dagger then AimRunning else 0)
      && FollowUpCheck !in y.log && ChecksOnlyWhenOpen(c, s, f.weapon, y.log)
      && Hits(y.log) <= (if s.player.weaponBlocked == Unblocked then 1 else 0)
  {
    SteadyStart(s, f);
    var x := Ctx(StartFrame(s, f), []);
    var t := WeaponRecover(c, x, f, f.weapon);
    assert MeleeTurn(c, x, f, f.weapon, j) == t;
    WeaponRecoverEnds(c, x, f, f.weapon);
    MeleeFrameTurn(c, s, f, j);
    assert MainPass(c, Ctx(s, []), f).log == t.log;
    assert x.s.player.weaponBlocked == s.player.weaponBlocked;
  }

  /** The dagger, one- and two-handed swing block on an ended layer. */
  lemma WeaponRecoverEnds(c: Catalogue, x: Ctx, f: Frame, w: Weapon)
    requires x.log == [] && Ended(x.s.layer1)
    ensures var y := WeaponRecover(c, x, f, w);
      Playing(y.s.layer1, Wait(w)) && y.s.layer1.ctime == 0
      && y.s.layer1.flags == x.s.layer1.flags - {AnimEnd, Paused, Reverse} + {Loop}
      && y.s.player.strikeDirection == 0 && y.s.player.weaponBlocked == Unblocked
      && y.s.player.aimTime == RecoverEndAimTime(w)
      && FollowUpCheck !in y.log && ChecksOnlyWhenOpen(c, x.s, w, y.log)
      && Hits(y.log) <= (if x.s.player.weaponBlocked == Unblocked then 1 else 0)
  {
    var r := ResolveStrike(c, x, f, w);
    ResolveStrikeLatches(c, x, f, w);
    assert FollowUp(c, SwingEnd(r, w)) == SwingEnd(r, w);
    if x.s.player.weaponBlocked != Unblocked {
      NoChecksNoHits(r.log);
    }
  }

  /**
   * Consecutive main passes while the engine moves the layer time of a
   * swing: before frame `i` the layer time is `ts[i]`. The result holds the
   * state after the last frame and everything the frames emitted.
   */
  function Swing(c: Catalogue, s: Combat, fs: seq<Frame>, ts: seq<int>): Ctx
    requires |fs| == |ts| && forall i :: 0 <= i < |fs| ==> fs[i].fullAimTime > 0
    decreases |fs|
  {
    if fs == [] then Ctx(s, [])
    else
      var y := MainPass(c, Ctx(s.(layer1 := s.layer1.(ctime := ts[0])), []), fs[0]);
      var z := Swing(c, y.s, fs[1..], ts[1..]);
      Ctx(z.s, y.log + z.log)
  }

  /**
   * One hit per swing, while the swing lasts: however many frames it takes
   * and however its layer time moves, at most one damaging check lands, and
   * none once the latch is closed. The swing is still playing afterwards,
   * and the latch is closed if a check landed, untouched otherwise.
   */
  lemma {:induction false} OneHitPerSwing(c: Catalogue, s: Combat, j: Dir, fs: seq<Frame>, ts: seq<int>)
    requires |fs| == |ts| && s.lastWeapon.Some? && s.lastWeapon.value != Bow
    requires forall i :: 0 <= i < |fs| ==> fs[i].fullAimTime > 0 && Some(fs[i].weapon) == s.lastWeapon
    requires Playing(s.layer1, Recover(s.lastWeapon.value, j)) && !Ended(s.layer1)
    ensures var z := Swing(c, s, fs, ts);
      Hits(z.log) <= (if s.player.weaponBlocked == Unblocked then 1 else 0)
      && Playing(z.s.layer1, Recover(s.lastWeapon.value, j)) && !Ended(z.s.layer1)
      && z.s.lastWeapon == s.lastWeapon
      && (Hits(z.log) == 0 ==> z.s.player.weaponBlocked == s.player.weaponBlocked)
      && (Hits(z.log) > 0 ==> z.s.player.weaponBlocked != Unblocked)
    decreases |fs|
  {
    if fs != [] {
      var s0 := s.(layer1 := s.layer1.(ctime := ts[0]));
      var f := fs[0];
      assert Swinging(s0, f, j);
      var y := MainPass(c, Ctx(s0, []), f);
      if f.weapon == Bare {
        BareSwingFrame(c, s0, f, j);
      } else {
        WeaponSwingFrame(c, s0, f, j);
      }
      if s.player.weaponBlocked != Unblocked {
        NoChecksNoHits(y.log);
      }
      var z := Swing(c, y.s, fs[1..], ts[1..]);
      OneHitPerSwing(c, y.s, j, fs[1..], ts[1..]);
      HitsAppend(y.log, z.log);
      assert Swing(c, s, fs, ts) == Ctx(z.s, y.log + z.log);
    }
  }

  /** The layer as the engine hands it over on the frame a swing ends: at time `t`, with the end flag set. */
  function EndOfSwing(s: Combat, t: int): Combat {
    s.(layer1 := s.layer1.(ctime := t, flags := s.layer1.flags + {AnimEnd}))
  }

  /**
   * The frame on which a swing ends: at most one check lands, and none if the
   * latch was closed; the weapon is back in Wait with the latch open.
   */
  lemma SwingEndFrame(c: Catalogue, s: Combat, f: Frame, j: Dir)
    requires MeleeFrame(s, f) && Playing(s.layer1, Recover(f.weapon, j)) && Ended(s.layer1)
    ensures var y := MainPass(c, Ctx(s, []), f);
      Hits(y.log) <= (if s.player.weaponBlocked == Unblocked then 1 else 0)
      && Playing(y.s.layer1, Wait(f.weapon)) && y.s.player.weaponBlocked == Unblocked
  {
    if f.weapon == Bare {
      BareSwingEnds(c, s, f, j);
      assert Hits([]) == 0;
    } else {
      WeaponSwingEnds(c, s, f, j);
    }
  }

  /**
   * One hit per swing, from the first frame after the release to the return
   * to Wait: the frames of the swing, then the frame on which it ends (where
   * the dagger, one- and two-handed branches still run their resolving
   * check), land at most one damaging check between them, and none if the
   * swing started latched. The release frame itself lands none
   * (`StrikeReleased`).
   */
  lemma OneHitPerWholeSwing(c: Catalogue, s: Combat, j: Dir, fs: seq<Frame>, ts: seq<int>, f: Frame, t: int)
    requires |fs| == |ts| && s.lastWeapon.Some? && s.lastWeapon.value != Bow
    requires forall i :: 0 <= i < |fs| ==> fs[i].fullAimTime > 0 && Some(fs[i].weapon) == s.lastWeapon
    requires f.fullAimTime > 0 && Some(f.weapon) == s.lastWeapon
    requires Playing(s.layer1, Recover(s.lastWeapon.value, j)) && !Ended(s.layer1)
    ensures var z := Swing(c, s, fs, ts); var e := MainPass(c, Ctx(EndOfSwing(z.s, t), []), f);
      Hits(z.log + e.log) <= (if s.player.weaponBlocked == Unblocked then 1 else 0)
      && Playing(e.s.layer1, Wait(f.weapon)) && e.s.player.weaponBlocked == Unblocked
  {
    var z := Swing(c, s, fs, ts);
    OneHitPerSwing(c, s, j, fs, ts);
    var se := EndOfSwing(z.s, t);
    SwingEndFrame(c, se, f, j);
    HitsAppend(z.log, MainPass(c, Ctx(se, []), f).log);
  }

  // ---- Bow ----

  /** The conditions of a bow frame. */
  predicate BowFrame(f: Frame) {
    f.fullAimTime > 0 && f.weapon == Bow
  }

  /** A bow frame is the bow branch after the timer advance; the last weapon becomes the bow. */
  lemma BowFrameUnfolds(c: Catalogue, s: Combat, f: Frame)
    requires BowFrame(f)
    ensures var s1 := StartFrame(s, f); var y := BowPass(Ctx(s1, []), f);
      MainPass(c, Ctx(s, []), f) == Ctx(y.s.(lastWeapon := Some(Bow)), y.log)
      && s1.layer1 == s.layer1 && s1.isHit == s.isHit && s1.player == s.player.(aimTime := s1.player.aimTime)
  {
  }

  /** The bow leaves Wait for the first draw only when the button is pressed and an arrow stack exists. */
  lemma BowDrawNeedsArrows(c: Catalogue, s: Combat, f: Frame)
    requires BowFrame(f) && Playing(s.layer1, Wait(Bow))
    ensures var y := MainPass(c, Ctx(s, []), f);
      y.s.layer1 == (if f.pressed && f.quiver.Some? then ChangeAnimation(s.layer1, BowDraw1, false) else s.layer1)
      && (f.pressed && f.quiver.Some? ==> !y.s.isHit)
      && y.s.player.aimTime == AimRunning && y.log == []
  {
    BowFrameUnfolds(c, s, f);
  }

  /** A release leaves the charge and the aim rotation alone. */
  lemma LaunchKeepsCharge(x: Ctx, f: Frame)
    requires f.fullAimTime > 0
    ensures var y := BowLaunch(x, f);
      y.s.player.bowAimRatio == x.s.player.bowAimRatio && y.s.player.bowAimRotation == x.s.player.bowAimRotation
  {
  }

  /** The charge and the aim rotation after the bow branch, case by case. */
  lemma BowPassCharge(s: Combat, f: Frame)
    requires f.fullAimTime > 0
    ensures var y := BowPass(Ctx(s, []), f); var r := s.player.bowAimRatio; var a := y.s.player.bowAimRotation;
      (Playing(s.layer1, BowCycle) ==> y.s.player.bowAimRatio == (if r + f.bowZoom > 1.0 then 1.0 else r + f.bowZoom))
      && (Playing(s.layer1, BowRelease) && !Ended(s.layer1) ==>
            y.s.player.bowAimRatio == (if r - f.bowZoom < 0.0 then 0.0 else r - f.bowZoom))
      && (Playing(s.layer1, BowRelease) && Ended(s.layer1) ==> y.s.player.bowAimRatio == 0.0)
      && (!Playing(s.layer1, BowCycle) && !Playing(s.layer1, BowRelease) ==> y.s.player.bowAimRatio == r)
      && (!Playing(s.layer1, BowCycle) ==> a == NoRotation)
      && (Playing(s.layer1, BowCycle) && !f.improvedBowAim ==> a == s.player.bowAimRotation)
      && (Playing(s.layer1, BowCycle) && f.improvedBowAim ==> -90.0 <= a.pitch <= 90.0 && -90.0 <= a.yaw <= 90.0)
  {
    if Playing(s.layer1, BowCycle) {
      BowCycleCharge(s, f);
    } else {
      BowOtherCharge(s, f);
    }
  }

  /** The bow branch while the bow is held drawn: the charge grows up to 1, the rotation follows the aim. */
  lemma BowCycleCharge(s: Combat, f: Frame)
    requires f.fullAimTime > 0 && Playing(s.layer1, BowCycle)
    ensures var y := BowPass(Ctx(s, []), f); var r := s.player.bowAimRatio; var a := y.s.player.bowAimRotation;
      y.s.player.bowAimRatio == (if r + f.bowZoom > 1.0 then 1.0 else r + f.bowZoom)
      && (!f.improvedBowAim ==> a == s.player.bowAimRotation)
      && (f.improvedBowAim ==> a == AimRotation(s.player.bowAimRotation, f))
  {
    var s2 := BowStart(s, f);
    assert s2.layer1 == s.layer1;
    var q := s2.player;
    var x4 := if f.improvedBowAim then PutPlayer(Ctx(s2, []), q.(bowAimRotation := AimRotation(q.bowAimRotation, f))) else Ctx(s2, []);
    assert BowPass(Ctx(s, []), f) == (if f.pressed then x4 else BowLaunch(x4, f));
    LaunchKeepsCharge(x4, f);
  }

  /** The bow branch in every other pose: the rotation is reset, the charge only moves during the release. */
  lemma BowOtherCharge(s: Combat, f: Frame)
    requires f.fullAimTime > 0 && !Playing(s.layer1, BowCycle)
    ensures var y := BowPass(Ctx(s, []), f); var r := s.player.bowAimRatio;
      y.s.player.bowAimRotation == NoRotation
      && (Playing(s.layer1, BowRelease) && !Ended(s.layer1) ==>
            y.s.player.bowAimRatio == (if r - f.bowZoom < 0.0 then 0.0 else r - f.bowZoom))
      && (Playing(s.layer1, BowRelease) && Ended(s.layer1) ==> y.s.player.bowAimRatio == 0.0)
      && (!Playing(s.layer1, BowRelease) ==> y.s.player.bowAimRatio == r)
  {
    var s2 := BowStart(s, f);
    assert s2.player.bowAimRotation == NoRotation && s2.player.bowAimRatio == s.player.bowAimRatio;
    if Playing(s.layer1, BowRelease) {
      assert s2 == s.(player := s.player.(bowAimRotation := NoRotation));
      assert BowPass(Ctx(s, []), f) == BowDrawn(Ctx(s2, []), f);
    }
  }

  /**
   * The bow charge: capped at 1 while the bow is held drawn, let down by the
   * zoom but not below 0 while the release plays, and reset to 0 when the
   * release ends; so with non-negative increments it never leaves [0, 1].
   */
  lemma BowChargeBounded(c: Catalogue, s: Combat, f: Frame)
    requires BowFrame(f) && 0.0 <= s.player.bowAimRatio <= 1.0 && f.bowZoom >= 0.0
    ensures var y := MainPass(c, Ctx(s, []), f); var r := s.player.bowAimRatio;
      0.0 <= y.s.player.bowAimRatio <= 1.0
      && (Playing(s.layer1, BowCycle) ==> y.s.player.bowAimRatio == (if r + f.bowZoom > 1.0 then 1.0 else r + f.bowZoom))
      && (Playing(s.layer1, BowRelease) && !Ended(s.layer1) ==>
            y.s.player.bowAimRatio == (if r - f.bowZoom < 0.0 then 0.0 else r - f.bowZoom))
      && (Playing(s.layer1, BowRelease) && Ended(s.layer1) ==> y.s.player.bowAimRatio == 0.0)
      && (!Playing(s.layer1, BowCycle) && !Playing(s.layer1, BowRelease) ==> y.s.player.bowAimRatio == r)
  {
    BowFrameUnfolds(c, s, f);
    BowPassCharge(StartFrame(s, f), f);
  }

  /** The bow's charge and aim rotation are the same in both states. */
  predicate KeepsBow(s: Combat, t: Combat) {
    t.player.bowAimRatio == s.player.bowAimRatio && t.player.bowAimRotation == s.player.bowAimRotation
  }

  /** No turn of the melee loop touches the bow's charge or rotation. */
  lemma MeleeTurnKeepsBow(c: Catalogue, x: Ctx, f: Frame, w: Weapon, j: Dir)
    requires f.fullAimTime > 0 && w != Bow
    ensures KeepsBow(x.s, MeleeTurn(c, x, f, w, j).s)
  {
  }

  /** The first `n` turns of the melee loop leave the bow's charge and rotation alone. */
  lemma {:induction false} MeleeLoopKeepsBow(c: Catalogue, x: Ctx, f: Frame, w: Weapon, n: nat)
    requires f.fullAimTime > 0 && w != Bow && n <= 4
    ensures KeepsBow(x.s, MeleeLoop(c, x, f, w, n).s)
  {
    if n > 0 {
      MeleeLoopKeepsBow(c, x, f, w, n - 1);
      MeleeTurnKeepsBow(c, MeleeLoop(c, x, f, w, n - 1), f, w, n - 1);
    }
  }

  /** A main pass with a melee weapon never writes the bow's charge or rotation. */
  lemma MeleeKeepsBow(c: Catalogue, s: Combat, f: Frame)
    requires f.fullAimTime > 0 && f.weapon != Bow
    ensures KeepsBow(s, MainPass(c, Ctx(s, []), f).s)
  {
    var s1 := StartFrame(s, f);
    MeleeLoopKeepsBow(c, Ctx(MeleeWait(s1, f, f.weapon), []), f, f.weapon, 4);
  }

  /** Whatever the weapon, a main pass with a non-negative increment keeps the bow's charge in [0, 1]. */
  lemma BowChargeInvariant(c: Catalogue, s: Combat, f: Frame)
    requires f.fullAimTime > 0 && f.bowZoom >= 0.0 && 0.0 <= s.player.bowAimRatio <= 1.0
    ensures 0.0 <= MainPass(c, Ctx(s, []), f).s.player.bowAimRatio <= 1.0
  {
    if f.weapon == Bow {
      BowChargeBounded(c, s, f);
    } else {
      MeleeKeepsBow(c, s, f);
    }
  }

  /** The aim rotation is reset whenever the bow is not held drawn, and stays within [-90, 90] when it is. */
  lemma BowRotationReset(c: Catalogue, s: Combat, f: Frame)
    requires BowFrame(f)
    ensures var y := MainPass(c, Ctx(s, []), f); var a := y.s.player.bowAimRotation;
      (!Playing(s.layer1, BowCycle) ==> a == NoRotation)
      && (Playing(s.layer1, BowCycle) && !f.improvedBowAim ==> a == s.player.bowAimRotation)
      && (Playing(s.layer1, BowCycle) && f.improvedBowAim ==> -90.0 <= a.pitch <= 90.0 && -90.0 <= a.yaw <= 90.0)
  {
    BowFrameUnfolds(c, s, f);
    BowPassCharge(StartFrame(s, f), f);
  }

  /** No arrow leaves while the button is held. */
  lemma NoLaunchWhilePressed(c: Catalogue, s: Combat, f: Frame)
    requires BowFrame(f) && f.pressed
    ensures var y := MainPass(c, Ctx(s, []), f);
      forall i :: 0 <= i < |y.log| ==> !y.log[i].Throw?
  {
    BowFrameUnfolds(c, s, f);
    var y := BowPass(Ctx(StartFrame(s, f), []), f);
    assert y.log == [] || y.log == [LinkArrow] || y.log == [UnlinkArrow];
  }

  /** The extra arrows of a multiple shot fly at yaw offsets -8, -4, 4 and 8 degrees. */
  lemma {:induction false} SideShotsFan(aim: real, damage: real, poison: real)
    ensures SideShots(aim, damage, poison, 3) ==
      [Shot(aim, -8.0, damage, poison), Shot(aim, -4.0, damage, poison),
       Shot(aim, 4.0, damage, poison), Shot(aim, 8.0, damage, poison)]
  {
    assert SideShots(aim, damage, poison, -2) == [];
    assert SideShots(aim, damage, poison, -1) == [Shot(aim, SideShotYaw(-2), damage, poison)];
    assert SideShots(aim, damage, poison, 0) == SideShots(aim, damage, poison, -1) + [Shot(aim, SideShotYaw(-1), damage, poison)];
    assert SideShots(aim, damage, poison, 1) == SideShots(aim, damage, poison, 0);
    assert SideShots(aim, damage, poison, 2) == SideShots(aim, damage, poison, 1) + [Shot(aim, SideShotYaw(1), damage, poison)];
    assert SideShots(aim, damage, poison, 3) == SideShots(aim, damage, poison, 2) + [Shot(aim, SideShotYaw(2), damage, poison)];
  }

  /** Every arrow is thrown at least at speed 0.9, with a pull in [0, 0.0002], with the damage and poison given. */
  lemma ShotBounds(aim: real, yaw: real, damage: real, poison: real)
    ensures var e := Shot(aim, yaw, damage, poison);
      e.speed >= 0.9 && 0.0 <= e.gravity <= 0.0002 && e.damage == damage && e.poison == poison && e.yaw == yaw
      && (aim >= 1.0 ==> e.gravity == 0.0)
  {
  }

  /** The arrows of one release: the straight one, then the fan of a multiple shot. */
  function Volley(aim: real, damage: real, poison: real, multiShot: bool): (v: seq<Event>)
    ensures |v| == (if multiShot then 5 else 1)
    ensures forall i :: 0 <= i < |v| ==>
      v[i].Throw? && v[i].damage == damage && v[i].poison == poison && v[i].speed >= 0.9 && 0.0 <= v[i].gravity <= 0.0002
    ensures v[0] == Shot(aim, 0.0, damage, poison)
  {
    SideShotsFan(aim, damage, poison);
    [Shot(aim, 0.0, damage, poison)] + (if multiShot then SideShots(aim, damage, poison, 3) else [])
  }

  /** The poison the arrows carry: the stack's, raised to 3 by a multiple shot. */
  function ArrowPoison(f: Frame): (p: real)
    ensures f.multiShot ==> p >= 3.0
    ensures !f.multiShot ==> p == (if f.quiver.Some? then f.quiver.value.poisonous else 0.0)
  {
    var p0 := if f.quiver.Some? then f.quiver.value.poisonous else 0.0;
    if f.multiShot && p0 < 3.0 then 3.0 else p0
  }

  /** What a release emits, in order. */
  lemma BowLaunchEmits(x: Ctx, f: Frame)
    requires x.log == [] && f.fullAimTime > 0
    ensures var y := BowLaunch(x, f); var aim := x.s.player.bowAimRatio;
      y.log == [UnlinkArrow, ScriptStrike(Tag(Bow)), RemoveInvisibility]
               + (if f.quiver.Some? then [SpendArrow(SpendQuiver(f.quiver.value))] else [])
               + (if f.arrowModelOk then Volley(aim, ArrowDamage(f), ArrowPoison(f), f.multiShot) else [])
      && y.s.layer1 == ChangeAnimation(x.s.layer1, BowRelease, false)
      && y.s.player.strikeAimRatio == aim
      && y.s.player.aimTime == (if f.arrowModelOk then 0 else x.s.player.aimTime)
  {
  }

  /**
   * Releasing the drawn bow: the release animation starts, SM_STRIKE "bow"
   * is sent, the arrow stack is spent, and one arrow (five with a multiple
   * shot) flies with the charge of this frame as its aim.
   */
  lemma BowLaunchFrame(c: Catalogue, s: Combat, f: Frame)
    requires BowFrame(f) && Playing(s.layer1, BowCycle) && !f.pressed
    ensures var y := MainPass(c, Ctx(s, []), f); var r := s.player.bowAimRatio;
      var aim := if r + f.bowZoom > 1.0 then 1.0 else r + f.bowZoom;
      y.log == [UnlinkArrow, ScriptStrike(Tag(Bow)), RemoveInvisibility]
               + (if f.quiver.Some? then [SpendArrow(SpendQuiver(f.quiver.value))] else [])
               + (if f.arrowModelOk then Volley(aim, ArrowDamage(f), ArrowPoison(f), f.multiShot) else [])
      && y.s.layer1 == ChangeAnimation(s.layer1, BowRelease, false)
      && y.s.player.strikeAimRatio == aim
  {
    BowFrameUnfolds(c, s, f);
    var s2 := BowStart(StartFrame(s, f), f);
    assert s2.layer1 == s.layer1;
    var q := s2.player;
    var x4 := if f.improvedBowAim then PutPlayer(Ctx(s2, []), q.(bowAimRotation := AimRotation(q.bowAimRotation, f))) else Ctx(s2, []);
    assert BowPass(Ctx(StartFrame(s, f), []), f) == BowLaunch(x4, f);
    BowLaunchEmits(x4, f);
  }

  /** The arrow is nocked when the first draw ends; the full draw leads to the looping held pose. */
  lemma BowDrawStages(c: Catalogue, s: Combat, f: Frame)
    requires BowFrame(f) && Ended(s.layer1)
    ensures var y := MainPass(c, Ctx(s, []), f);
      (Playing(s.layer1, BowDraw1) ==>
         y.s.layer1 == ChangeAnimation(s.layer1, BowDraw2, false) && y.s.player.aimTime == 0 && y.log == [LinkArrow])
      && (Playing(s.layer1, BowDraw2) ==>
         y.s.layer1 == ChangeAnimation(s.layer1, BowCycle, true) && y.s.player.aimTime == AimRunning && y.log == [])
  {
    BowFrameUnfolds(c, s, f);
  }

  /** The release has played out: back to the looping Wait, charge and latch reset, arrow unlinked. */
  lemma BowReleaseEnds(c: Catalogue, s: Combat, f: Frame)
    requires BowFrame(f) && Ended(s.layer1) && Playing(s.layer1, BowRelease)
    ensures var y := MainPass(c, Ctx(s, []), f);
      y.s.layer1 == ChangeAnimation(s.layer1, Wait(Bow), true)
      && y.s.player.bowAimRatio == 0.0 && y.s.player.aimTime == 0 && y.s.player.weaponBlocked == Unblocked
      && y.log == [UnlinkArrow]
  {
    BowFrameUnfolds(c, s, f);
  }

  // ---- The END pass ----

  /** The opening block of the END pass: a ready animation keeps the aim timer running. */
  function EndOpening(s: Combat): Ctx {
    if s.layer1.cur.Some? && IsReady(s.layer1.cur.value)
    then PutPlayer(Ctx(s, []), s.player.(aimTime := AimRunning)) else Ctx(s, [])
  }

  /** On an ended layer 1 the END pass is the opening block, the layer-1 blocks, then the shield block. */
  lemma EndPassOnEnded(c: Catalogue, s: Combat, f: Frame)
    requires Ended(s.layer1)
    ensures var z := LayerOneEnded(c, EndOpening(s), f); var y := EndPass(c, Ctx(s, []), f);
      y.log == z.log && y.s == z.s.(layer3 := y.s.layer3)
  {
  }

  /** The weapon switch ignores animations it does not finish. */
  lemma ReadyEndIdle(c: Catalogue, x: Ctx, f: Frame)
    requires x.s.layer1.cur.Some? && !IsReady(x.s.layer1.cur.value)
    requires x.s.layer1.cur.value !in {BowDraw1, BowDraw2} && !x.s.layer1.cur.value.UnreadyPart1?
    ensures ReadyEnd(c, x, f) == x
  {
  }

  /** The cast blocks ignore every other animation. */
  lemma CastFinishIdle(c: Catalogue, x: Ctx)
    requires !Playing(x.s.layer1, Cast) && !Playing(x.s.layer1, CastEnd)
    ensures CastFinish(c, x) == x
  {
  }

  /** Putting a weapon away ends: layer 1 is cleared, nothing is emitted. */
  lemma UnreadyEndClears(c: Catalogue, s: Combat, f: Frame)
    requires Ended(s.layer1) && s.layer1.cur.Some? && IsUnreadyEnd(s.layer1.cur.value)
    ensures var y := EndPass(c, Ctx(s, []), f);
      y.s.layer1 == ClearLayer(s.layer1) && y.s.player == s.player && y.log == []
  {
    EndPassOnEnded(c, s, f);
    var x1 := Ctx(s.(layer1 := ClearLayer(s.layer1)), []);
    assert LayerOneEnded(c, EndOpening(s), f) == CastFinish(c, ReadyEnd(c, x1, f));
    assert ReadyEnd(c, x1, f) == x1;
    CastFinishIdle(c, x1);
  }

  /** The weapon switch on the ended first part of putting a weapon away. */
  lemma UnreadyFirstPartBlock(c: Catalogue, x: Ctx, f: Frame)
    requires f.weapon != Bare && ReadyPart1(f.weapon) in c.loaded && Playing(x.s.layer1, UnreadyPart1(f.weapon))
    ensures ReadyEnd(c, x, f)
      == Ctx(x.s.(layer1 := ChangeAnimation(x.s.layer1, UnreadyPart2(f.weapon), false)), x.log + [AttachToBack])
  {
  }

  /** The first part of putting a weapon away ends: the weapon goes to the back and the second part plays. */
  lemma UnreadyFirstPartEnds(c: Catalogue, s: Combat, f: Frame)
    requires f.weapon != Bare && ReadyPart1(f.weapon) in c.loaded
    requires Ended(s.layer1) && Playing(s.layer1, UnreadyPart1(f.weapon))
    ensures var y := EndPass(c, Ctx(s, []), f);
      y.s.layer1 == ChangeAnimation(s.layer1, UnreadyPart2(f.weapon), false)
      && y.s.player == s.player && y.log == [AttachToBack]
  {
    EndPassOnEnded(c, s, f);
    var x1 := EndOpening(s);
    assert x1 == Ctx(s, []);
    UnreadyFirstPartBlock(c, x1, f);
    CastFinishIdle(c, ReadyEnd(c, x1, f));
  }

  /** The stage that follows an ended bow draw: the second draw after the first, the held cycle after the second. */
  function NextDraw(a: Anim): Anim {
    if a == BowDraw1 then BowDraw2 else BowCycle
  }

  /** The weapon switch on an ended bow draw: the next stage is set, without looping, and nothing is emitted. */
  lemma BowDrawBlock(c: Catalogue, x: Ctx, f: Frame)
    requires f.weapon == Bow && ReadyPart1(Bow) in c.loaded
    requires Playing(x.s.layer1, BowDraw1) || Playing(x.s.layer1, BowDraw2)
    ensures ReadyEnd(c, x, f)
      == Ctx(x.s.(layer1 := SetAnimation(x.s.layer1, NextDraw(x.s.layer1.cur.value))), x.log)
  {
  }

  /** A bow draw ends in the END pass: the next stage plays from its start and the player is untouched. */
  lemma BowDrawEnds(c: Catalogue, s: Combat, f: Frame)
    requires f.weapon == Bow && ReadyPart1(Bow) in c.loaded
    requires Ended(s.layer1) && (Playing(s.layer1, BowDraw1) || Playing(s.layer1, BowDraw2))
    ensures var y := EndPass(c, Ctx(s, []), f);
      (Playing(s.layer1, BowDraw1) ==> y.s.layer1 == SetAnimation(s.layer1, BowDraw2))
      && (Playing(s.layer1, BowDraw2) ==> y.s.layer1 == SetAnimation(s.layer1, BowCycle))
      && Loop !in y.s.layer1.flags && y.s.player == s.player && y.log == []
  {
    EndPassOnEnded(c, s, f);
    var x1 := EndOpening(s);
    assert x1 == Ctx(s, []);
    BowDrawBlock(c, x1, f);
    CastFinishIdle(c, ReadyEnd(c, x1, f));
  }

  /** The first part of drawing a weapon ends: the weapon goes to the hand and the second part plays. */
  lemma ReadyFirstPartEnds(c: Catalogue, s: Combat, f: Frame)
    requires f.weapon != Bare && ReadyPart1(f.weapon) in c.loaded
    requires Ended(s.layer1) && Playing(s.layer1, ReadyPart1(f.weapon))
    ensures var y := EndPass(c, Ctx(s, []), f);
      y.s.layer1 == ChangeAnimation(s.layer1, ReadyPart2(f.weapon), false)
      && y.s.player == s.player.(aimTime := AimRunning) && y.log == [AttachToHand]
  {
    EndPassOnEnded(c, s, f);
    var x1 := EndOpening(s);
    var x2 := ReadyEnd(c, x1, f);
    assert x2 == Put(Emit(x1, AttachToHand), x1.s.(layer1 := ChangeAnimation(s.layer1, ReadyPart2(f.weapon), false)));
    CastFinishIdle(c, x2);
  }

  /**
   * Drawing a melee weapon ends: with a strike suppressed the weapon waits
   * (looping) and the suppression is lifted; otherwise the queued strike
   * starts in the chosen direction. Either way the aim timer runs and the
   * hit flag is down.
   */
  lemma ReadyEnds(c: Catalogue, s: Combat, f: Frame)
    requires f.weapon != Bow && (f.weapon != Bare ==> ReadyPart1(f.weapon) in c.loaded)
    requires Ended(s.layer1) && Playing(s.layer1, if f.weapon == Bare then BareReady else ReadyPart2(f.weapon))
    ensures var y := EndPass(c, Ctx(s, []), f); var w := f.weapon; var q := s.player;
      (NoStrike in q.interface ==>
         y.s.layer1 == ChangeAnimation(s.layer1, Wait(w), true) && y.s.player.interface == q.interface - {NoStrike})
      && (NoStrike !in q.interface ==>
         y.s.layer1 == ChangeAnimation(s.layer1, StrikeStart(w, q.strikeDirection), false)
         && y.s.player.interface == q.interface)
      && y.s.player.aimTime == AimRunning && !y.s.isHit && y.log == []
  {
    EndPassOnEnded(c, s, f);
    var x1 := EndOpening(s);
    var x2 := ReadyEnd(c, x1, f);
    assert x2 == Put(x1, FinishReady(x1.s, f.weapon));
    CastFinishIdle(c, x2);
  }

  /**
   * Drawing the bow ends: without arrows it only waits; with arrows it waits
   * (looping) if a strike is suppressed, else starts the first draw.
   */
  lemma BowReadyEnds(c: Catalogue, s: Combat, f: Frame)
    requires f.weapon == Bow && ReadyPart1(Bow) in c.loaded
    requires Ended(s.layer1) && Playing(s.layer1, ReadyPart2(Bow))
    ensures var y := EndPass(c, Ctx(s, []), f); var q := s.player;
      (f.quiver.None? ==> y.s.layer1 == ChangeAnimation(s.layer1, Wait(Bow), false))
      && (f.quiver.Some? && NoStrike in q.interface ==>
            y.s.layer1 == ChangeAnimation(s.layer1, Wait(Bow), true)
            && y.s.player.interface == q.interface - {NoStrike} && !y.s.isHit)
      && (f.quiver.Some? && NoStrike !in q.interface ==>
            y.s.layer1 == ChangeAnimation(s.layer1, BowDraw1, false) && !y.s.isHit)
      && y.s.player.aimTime == AimRunning && y.log == [UnlinkArrow]
  {
    EndPassOnEnded(c, s, f);
    var x1 := EndOpening(s);
    assert x1.s == s.(player := s.player.(aimTime := AimRunning)) && x1.log == [];
    BowReadyBlock(c, x1, f);
    CastFinishIdle(c, ReadyEnd(c, x1, f));
  }

  /** The weapon switch on the bow's ended second ready part. */
  lemma BowReadyBlock(c: Catalogue, x: Ctx, f: Frame)
    requires f.weapon == Bow && ReadyPart1(Bow) in c.loaded && x.log == []
    requires Playing(x.s.layer1, ReadyPart2(Bow))
    ensures var y := ReadyEnd(c, x, f); var q := x.s.player; var l := x.s.layer1;
      (f.quiver.None? ==> y.s == x.s.(layer1 := ChangeAnimation(l, Wait(Bow), false)))
      && (f.quiver.Some? && NoStrike in q.interface ==>
            y.s == x.s.(layer1 := ChangeAnimation(l, Wait(Bow), true), player := q.(interface := q.interface - {NoStrike}),
                        isHit := false))
      && (f.quiver.Some? && NoStrike !in q.interface ==>
            y.s == x.s.(layer1 := ChangeAnimation(l, BowDraw1, false), isHit := false))
      && y.log == [UnlinkArrow]
  {
  }

  /** A spell cast ends: the cast-end animation follows, if it is loaded. */
  lemma CastEnds(c: Catalogue, s: Combat, f: Frame)
    requires Cast in c.loaded && CastEnd in c.loaded && Ended(s.layer1) && Playing(s.layer1, Cast)
    ensures var y := EndPass(c, Ctx(s, []), f);
      y.s.layer1 == ChangeAnimation(s.layer1, CastEnd, false) && y.s.player == s.player && y.log == []
  {
    EndPassOnEnded(c, s, f);
    ReadyEndIdle(c, Ctx(s, []), f);
  }

  /**
   * The cast-end animation ends: layer 1 is cleared and casting stops; a
   * player who was fighting before the cast goes back to combat mode with
   * strikes suppressed, once.
   */
  lemma CastEndFinishes(c: Catalogue, s: Combat, f: Frame)
    requires CastEnd in c.loaded && Ended(s.layer1) && Playing(s.layer1, CastEnd)
    ensures var y := EndPass(c, Ctx(s, []), f);
      y.s.layer1.cur == None && y.s.player.doingMagic == 0 && !y.s.willReturnToCombat
      && (s.willReturnToCombat ==>
            y.s.player.interface == s.player.interface + {CombatMode, NoStrike} && y.log == [LaunchReadyWeapon])
      && (!s.willReturnToCombat ==> y.s.player.interface == s.player.interface && y.log == [])
  {
    EndPassOnEnded(c, s, f);
    ReadyEndIdle(c, Ctx(s, []), f);
  }

  /** The shield's lowering animation has ended: layer 3 is cleared. */
  lemma ShieldEndClears(c: Catalogue, s: Combat, f: Frame)
    requires ShieldEnd in c.loaded && Ended(s.layer3) && Playing(s.layer3, ShieldEnd)
    ensures EndPass(c, Ctx(s, []), f).s.layer3 == ClearLayer(s.layer3)
  {
  }

  // ---- The shield arm outside combat ----

  /** Layer 3 holds nothing or one of the shield animations. */
  predicate ShieldArm(l: Layer) {
    l.cur == None || l.cur == Some(ShieldStart) || l.cur == Some(ShieldCycle)
    || l.cur == Some(ShieldHit) || l.cur == Some(ShieldEnd)
  }

  /**
   * The shield arm: raised while a shield is equipped and the controls are
   * free, held once raised, lowered when the shield goes, cleared once
   * lowered; frozen while leaning; nothing else changes, and the arm only
   * ever plays shield animations.
   */
  lemma ShieldSteps(s: Combat, f: Frame)
    ensures var r := ShieldPass(s, f); var l := s.layer3;
      r == s.(layer3 := r.layer3)
      && (ShieldArm(l) ==> ShieldArm(r.layer3))
      && (f.leaning ==> r == s)
      && (!f.leaning && f.shieldEquipped && !f.controlsBlocked && (l.cur == None || Playing(l, ShieldEnd)) ==>
            r.layer3 == ChangeAnimation(l, ShieldStart, false))
      && (!f.leaning && f.shieldEquipped && !f.controlsBlocked && Playing(l, ShieldStart) && Ended(l) ==>
            r.layer3 == ChangeAnimation(l, ShieldCycle, true))
      && (!f.leaning && !(f.shieldEquipped && !f.controlsBlocked) && Playing(l, ShieldCycle) ==>
            r.layer3 == ChangeAnimation(l, ShieldEnd, false))
      && (!f.leaning && !(f.shieldEquipped && !f.controlsBlocked) && Playing(l, ShieldEnd) && Ended(l) ==>
            r.layer3 == ClearLayer(l))
  {
  }
}
