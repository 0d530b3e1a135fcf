/**
 * The player's combat animation sequencer as functions on values.
 *
 * Each function describes one block of the per-frame passes: it takes the
 * player's combat state and what the engine answers this frame, and gives the
 * new state together with the side effects the block emits, in order. The
 * class in module PlayerCombat runs the same blocks imperatively and is
 * proved equal to these functions; module CombatProps states the sequencer's
 * guarantees about them.
 */
module CombatSpec {
  import opened Anims

  /** `AnimationDuration::ofRaw(-1)`: no hit has been resolved in this swing. */
  const Unblocked: int := -1

  /** `PlatformDuration::ofRaw(1)`: the aim timer is running. */
  const AimRunning: int := 1

  /** The two `player.Interface` bits the sequencer reads or writes. */
  datatype InterfaceBit = NoStrike | CombatMode

  /** `player.m_bowAimRotation`, in degrees. */
  datatype Angle = Angle(pitch: real, yaw: real, roll: real)

  const NoRotation := Angle(0.0, 0.0, 0.0)

  /** The poison charge of the arrow stack the bow draws from. */
  datatype Quiver = Quiver(poisonous: real, poisonousCount: int)

  /** The fields of the global `player` record the sequencer reads and writes. */
  datatype Player = Player(
    aimTime: int,                 // m_aimTime
    weaponBlocked: int,           // m_weaponBlocked
    strikeDirection: Dir,         // m_strikeDirection
    strikeAimRatio: real,         // m_strikeAimRatio
    bowAimRatio: real,            // m_bowAimRatio
    bowAimRotation: Angle,        // m_bowAimRotation
    interface: set<InterfaceBit>, // Interface
    doingMagic: int)              // doingmagic

  /** Everything the sequencer keeps from one frame to the next. */
  datatype Combat = Combat(
    player: Player,
    layer1: Layer,                // io->animlayer[1], the weapon arm
    layer3: Layer,                // io->animlayer[3], the shield arm
    isHit: bool,                  // io->isHit
    lastWeapon: Option<Weapon>,   // LAST_WEAPON_TYPE (-1 is None)
    willReturnToCombat: bool,     // WILLRETURNTOCOMBATMODE
    lastHitSound: int)            // the static lastHit of the bare-hand strike

  /**
   * What the engine answers during one frame: input, clock, player
   * statistics and the results of the calls the sequencer makes into
   * inventory, geometry and damage code.
   */
  datatype Frame = Frame(
    weapon: Weapon,               // ARX_EQUIPMENT_GetPlayerWeaponType()
    pressed: bool,                // eeMousePressed1()
    frameDuration: int,           // g_platformTime.lastFrameDuration()
    now: int,                     // g_platformTime.frameStart()
    bowZoom: real,                // bowZoomFromDuration(frame duration)
    quiver: Option<Quiver>,       // getInventoryItemWithLowestDurability("arrows", 1)
    fullAimTime: int,             // player.Full_AimTime
    miscDamages: real,            // player.m_miscFull.damages
    weaponDamage: real,           // getEquipmentBaseModifier(IO_EQUIPITEM_ELEMENT_Damages)
    projectileSkill: real,        // player.m_skillFull.projectile
    dexterity: real,              // player.m_attributeFull.dexterity
    weaponSpeech: Option<string>, // strikespeech of the equipped weapon, if it is valid
    playerSpeech: string,         // io->strikespeech
    leftAttach: bool,             // the left_attach action point exists
    primaryAttach: bool,          // the primary_attach action point exists
    sphereHit: bool,              // CheckAnythingInSphere(...)
    targetValid: bool,            // ValidIONum(num) for the entity found
    damageDone: bool,             // ARX_DAMAGES_TryToDoDamage(...)
    strikeHit: bool,              // ARX_EQUIPMENT_Strike_Check(..., 0)
    improvedBowAim: bool,         // config.input.improvedBowAim
    aimPitchDelta: real,          // pitch correction towards the aimed-at point
    aimYawDelta: real,            // yaw correction towards the aimed-at point
    arrowModelOk: bool,           // arrowobj && arrowobj->vertexlist.size() >= 2
    multiShot: bool,              // sp_max
    leaning: bool,                // PLAYER_LEAN_LEFT | PLAYER_LEAN_RIGHT
    shieldEquipped: bool,         // ValidIONum(player.equiped[EQUIP_SLOT_SHIELD])
    controlsBlocked: bool)        // BLOCK_PLAYER_CONTROLS

  /** Side effects the sequencer emits, in the order it emits them. */
  datatype Event =
    | RemoveInvisibility                 // ARX_PLAYER_Remove_Invisibility()
    | Speech(text: string)               // ARX_SPEECH_AddSpeech(...)
    | ScriptStrike(tag: string)          // SendIOScriptEvent(..., SM_STRIKE, tag)
    | TryDamage(amount: real, done: bool) // ARX_DAMAGES_TryToDoDamage and its result
    | Sparks(count: nat)                 // ParticleSparkSpawnContinous(..., unsigned(dmgs), ...)
    | CollisionSound                     // ARX_SOUND_PlayCollision(...)
    | StrikeCheck(hit: bool)             // ARX_EQUIPMENT_Strike_Check(..., 0) and its result
    | FollowUpCheck                      // ARX_EQUIPMENT_Strike_Check(..., 1)
    | LinkArrow                          // arrow linked to the left hand
    | UnlinkArrow                        // arrow unlinked from the hand
    | SpendArrow(stack: Quiver)          // quiver updated, one unit of durability lost
    | Throw(speed: real, yaw: real, gravity: real, damage: real, poison: real)
    | AttachToHand                       // ARX_EQUIPMENT_AttachPlayerWeaponToHand()
    | AttachToBack                       // ARX_EQUIPMENT_AttachPlayerWeaponToBack()
    | LaunchReadyWeapon                  // ARX_EQUIPMENT_LaunchPlayerReadyWeapon()


  /** The sequencer's state together with every side effect emitted so far. */
  datatype Ctx = Ctx(s: Combat, log: seq<Event>)

  /** Emit one side effect. */
  function Emit(x: Ctx, e: Event): (y: Ctx)
    ensures y.s == x.s && y.log == x.log + [e]
  {
    Ctx(x.s, x.log + [e])
  }

  /** Replace the state, keep the log. */
  function Put(x: Ctx, s: Combat): (y: Ctx)
    ensures y.s == s && y.log == x.log
  {
    Ctx(s, x.log)
  }

  /** Replace the `player` record, keep everything else. */
  function PutPlayer(x: Ctx, q: Player): (y: Ctx)
    ensures y.s == x.s.(player := q) && y.log == x.log
  {
    Ctx(x.s.(player := q), x.log)
  }

  function Clamp(x: real, lo: real, hi: real): (r: real)
    requires lo <= hi
    ensures lo <= r <= hi
    ensures lo <= x <= hi ==> r == x
    ensures x < lo ==> r == lo
    ensures x > hi ==> r == hi
  {
    if x < lo then lo else if x > hi then hi else x
  }

  /** `glm::clamp(m_aimTime / Full_AimTime, 0.1f, 1.0f)`. */
  function StrikeAimRatio(aimTime: int, fullAimTime: int): (r: real)
    requires fullAimTime > 0
    ensures 0.1 <= r <= 1.0
    ensures var q := aimTime as real / fullAimTime as real;
      (0.1 <= q <= 1.0 ==> r == q) && (q < 0.1 ==> r == 0.1) && (q > 1.0 ==> r == 1.0)
  {
    Clamp(aimTime as real / fullAimTime as real, 0.1, 1.0)
  }

  /** A strike charged this far makes the player shout. */
  predicate StrongStrike(ratio: real) {
    ratio > 0.8
  }

  /** `StrikeAimtime`; its boolean result is `StrongStrike` of the new ratio. */
  function AimStrike(x: Ctx, f: Frame): Ctx
    requires f.fullAimTime > 0
  {
    var y := Emit(x, RemoveInvisibility);
    var q := y.s.player;
    PutPlayer(y, q.(strikeAimRatio := StrikeAimRatio(q.aimTime, f.fullAimTime)))
  }

  /** The weapon's strike speech if the weapon is valid and has one, else the player's own. */
  function StrikeSpeechOf(f: Frame): Option<string> {
    if f.weaponSpeech.Some? && f.weaponSpeech.value != "" then Some(f.weaponSpeech.value)
    else if f.playerSpeech != "" then Some(f.playerSpeech)
    else None
  }

  /** `strikeSpeak`. */
  function SpeakStrike(x: Ctx, f: Frame): Ctx
    requires f.fullAimTime > 0
  {
    var y := AimStrike(x, f);
    if !StrongStrike(y.s.player.strikeAimRatio) then y
    else match StrikeSpeechOf(f)
      case None => y
      case Some(text) => Emit(y, Speech(text))
  }

  /** The tag of the SM_STRIKE script event for a weapon family. */
  function Tag(w: Weapon): string {
    match w
    case Bare => "bare"
    case Dagger => "dagger"
    case OneHanded => "1h"
    case TwoHanded => "2h"
    case Bow => "bow"
  }

  /** `m_aimTime` after a swing ends: bare hands and daggers keep the timer running. */
  function RecoverEndAimTime(w: Weapon): int {
    if w == Bare || w == Dagger then AimRunning else 0
  }

  /** `anim_time` of the animation the layer plays. */
  function AnimTime(c: Catalogue, l: Layer): int {
    if l.cur.Some? then c.duration(l.cur.value) else 0
  }

  /**
   * The layer time lies strictly inside the part of the swing where a hit
   * may be resolved: between 20% and 80% of the animation for bare hands,
   * between 30% and 70% for the other weapons (compared exactly, in tenths).
   */
  predicate InHitWindow(w: Weapon, ctime: int, duration: int) {
    if w == Bare then 2 * duration < 10 * ctime < 8 * duration
    else 3 * duration < 10 * ctime < 7 * duration
  }

  /** What the main pass never writes: the shield arm, the interface bits, spell casting. */
  predicate MainPassKeeps(s: Combat, t: Combat) {
    t.layer3 == s.layer3 && t.player.interface == s.player.interface
    && t.player.doingMagic == s.player.doingMagic && t.willReturnToCombat == s.willReturnToCombat
  }

  /** The two blocks that open `ManageCombatModeAnimations`. */
  function StartFrame(s: Combat, f: Frame): Combat {
    var q := s.player;
    var s1 := if q.aimTime > 0 then s.(player := q.(aimTime := q.aimTime + f.frameDuration)) else s;
    if f.weapon == Bare && s1.lastWeapon != Some(Bare) && !Playing(s1.layer1, Wait(Bare))
    then s1.(layer1 := ChangeAnimation(s1.layer1, Wait(Bare), false), player := s1.player.(aimTime := 0))
    else s1
  }

  /** `ManageCombatModeAnimations`. */
  function MainPass(c: Catalogue, x: Ctx, f: Frame): (y: Ctx)
    requires f.fullAimTime > 0
    ensures y.s.lastWeapon == Some(f.weapon)
    ensures MainPassKeeps(x.s, y.s) && x.log <= y.log
  {
    var x1 := Put(x, StartFrame(x.s, f));
    var x2 := if f.weapon == Bow then BowPass(x1, f) else MeleePass(c, x1, f, f.weapon);
    Put(x2, x2.s.(lastWeapon := Some(f.weapon)))
  }

  // ---- Melee weapons: Wait -> StrikeStart[d] -> StrikeCycle[d] -> Recover[d] -> Wait ----

  /** The Wait block of a melee branch, before the loop over directions. */
  function MeleeWait(s: Combat, f: Frame, w: Weapon): Combat {
    if !Playing(s.layer1, Wait(w)) then s
    else if f.pressed then
      s.(player := s.player.(aimTime := 0),
         layer1 := ChangeAnimation(s.layer1, StrikeStart(w, s.player.strikeDirection), false),
         isHit := false)
    else s.(player := s.player.(aimTime := 0))
  }

  /** One branch of a melee weapon: the Wait block, then the loop over the four directions. */
  function MeleePass(c: Catalogue, x: Ctx, f: Frame, w: Weapon): (y: Ctx)
    requires f.fullAimTime > 0 && w != Bow
    ensures MainPassKeeps(x.s, y.s) && x.log <= y.log
  {
    MeleeLoop(c, Put(x, MeleeWait(x.s, f, w)), f, w, 4)
  }

  /** The first `n` turns of the loop `for (j = 0; j < 4; j++)`. */
  function MeleeLoop(c: Catalogue, start: Ctx, f: Frame, w: Weapon, n: nat): (y: Ctx)
    requires f.fullAimTime > 0 && w != Bow && n <= 4
    ensures MainPassKeeps(start.s, y.s) && start.log <= y.log
  {
    if n == 0 then start
    else MeleeTurn(c, MeleeLoop(c, start, f, w, n - 1), f, w, n - 1)
  }

  /** Turn `j` of the loop: the three transitions that concern direction `j`. */
  function MeleeTurn(c: Catalogue, x: Ctx, f: Frame, w: Weapon, j: Dir): (y: Ctx)
    requires f.fullAimTime > 0 && w != Bow
    ensures MainPassKeeps(x.s, y.s) && x.log <= y.log
  {
    var l := x.s.layer1;
    if Playing(l, StrikeStart(w, j)) && Ended(l) then
      Put(x, x.s.(layer1 := ChangeAnimation(l, StrikeCycle(w, j), true),
                  player := x.s.player.(aimTime := AimRunning)))
    else if Playing(l, StrikeCycle(w, j)) && !f.pressed then ReleaseStrike(x, f, w, j)
    else if Playing(l, Recover(w, j)) then
      if w == Bare then BareRecover(c, x, f, j) else WeaponRecover(c, x, f, w)
    else x
  }

  /** The strike button is released while the strike is held: the swing starts. */
  function ReleaseStrike(x: Ctx, f: Frame, w: Weapon, j: Dir): (y: Ctx)
    requires f.fullAimTime > 0
    ensures MainPassKeeps(x.s, y.s) && x.log <= y.log
  {
    var y1 := SpeakStrike(Put(x, x.s.(layer1 := ChangeAnimation(x.s.layer1, Recover(w, j), false))), f);
    var y2 := Emit(y1, ScriptStrike(Tag(w)));
    var q := if w == Bare then y2.s.player.(weaponBlocked := Unblocked) else y2.s.player;
    PutPlayer(y2, q.(strikeDirection := 0, aimTime := 0))
  }

  /**
   * The bare-hand swing: at its end back to Wait; otherwise, inside the
   * window and while no hit was resolved, a sphere test at the hand.
   */
  function BareRecover(c: Catalogue, x: Ctx, f: Frame, j: Dir): (y: Ctx)
    ensures MainPassKeeps(x.s, y.s) && x.log <= y.log
  {
    var q := x.s.player;
    var l := x.s.layer1;
    if Ended(l) then
      Put(x, x.s.(layer1 := ChangeAnimation(l, Wait(Bare), true),
                  player := q.(strikeDirection := 0, aimTime := AimRunning, weaponBlocked := Unblocked)))
    else if InHitWindow(Bare, l.ctime, AnimTime(c, l)) && q.weaponBlocked == Unblocked then
      var attach := if j == 0 then f.leftAttach else f.primaryAttach;
      if attach && f.sphereHit then BareHit(x, f, FistDamage(f, q.strikeAimRatio)) else x
    else x
  }

  /** `(m_miscFull.damages + 1) * m_strikeAimRatio`: the damage of a bare-hand blow. */
  function FistDamage(f: Frame, ratio: real): real {
    (f.miscDamages + 1.0) * ratio
  }

  /**
   * `unsigned(dmgs)`: the number of sparks, the damage truncated toward zero.
   * The engine's conversion of a negative float is undefined; the model gives 0.
   */
  function SparkCount(damage: real): (n: nat)
    ensures damage >= 0.0 ==> n as real <= damage < n as real + 1.0
    ensures damage < 1.0 ==> n == 0
  {
    if damage >= 0.0 then damage.Floor else 0
  }

  /** A hand that touched something: damage, sparks, and a rate-limited collision sound. */
  function BareHit(x: Ctx, f: Frame, damage: real): (y: Ctx)
    ensures MainPassKeeps(x.s, y.s) && x.log <= y.log
  {
    var ctime := x.s.layer1.ctime;
    var y1 := Emit(x, TryDamage(damage, f.damageDone));
    var y2 := if f.damageDone then PutPlayer(y1, y1.s.player.(weaponBlocked := ctime)) else y1;
    var y3 := Emit(y2, Sparks(SparkCount(damage)));
    if f.targetValid && f.now - y3.s.lastHitSound > ctime then
      var y4 := Emit(y3, CollisionSound);
      Put(y4, y4.s.(lastHitSound := f.now))
    else y3
  }

  /**
   * The dagger, one- and two-handed swing: the resolving check inside the
   * window, then the end of the swing, then the follow-up check.
   */
  function WeaponRecover(c: Catalogue, x: Ctx, f: Frame, w: Weapon): (y: Ctx)
    ensures MainPassKeeps(x.s, y.s) && x.log <= y.log
  {
    FollowUp(c, SwingEnd(ResolveStrike(c, x, f, w), w))
  }

  /** Inside the window and while no hit was resolved, the weapon's strike check; a hit latches. */
  function ResolveStrike(c: Catalogue, x: Ctx, f: Frame, w: Weapon): (y: Ctx)
    ensures MainPassKeeps(x.s, y.s) && x.log <= y.log
  {
    var l := x.s.layer1;
    if InHitWindow(w, l.ctime, AnimTime(c, l)) && x.s.player.weaponBlocked == Unblocked then
      var e := Emit(x, StrikeCheck(f.strikeHit));
      if f.strikeHit then PutPlayer(e, e.s.player.(weaponBlocked := l.ctime)) else e
    else x
  }

  /** At the end of the swing: back to the looping Wait, unpaused and forwards, latch cleared. */
  function SwingEnd(x: Ctx, w: Weapon): (y: Ctx)
    ensures MainPassKeeps(x.s, y.s) && x.log == y.log
  {
    var l := x.s.layer1;
    if Ended(l) then
      var back := ChangeAnimation(l, Wait(w), true);
      Put(x, x.s.(layer1 := back.(flags := back.flags - {Paused, Reverse}),
                  player := x.s.player.(strikeDirection := 0, aimTime := RecoverEndAimTime(w),
                                        weaponBlocked := Unblocked)))
    else x
  }

  /** A resolved hit before 90% of the animation is checked once more. */
  function FollowUp(c: Catalogue, x: Ctx): (y: Ctx)
    ensures y.s == x.s && x.log <= y.log
  {
    var l := x.s.layer1;
    if x.s.player.weaponBlocked != Unblocked && 10 * l.ctime < 9 * AnimTime(c, l)
    then Emit(x, FollowUpCheck)
    else x
  }

  // ---- Bow: Wait -> Draw1 -> Draw2 -> Cycle (charge) -> Release -> Wait ----

  /** The yaw offset, in degrees, of the extra arrow number `i` of a multiple shot. */
  function SideShotYaw(i: int): real {
    4.0 * (i as real)
  }

  /** `std::max(aimratio + 0.3f, 0.9f)`. */
  function LaunchSpeed(aim: real): (r: real)
    ensures r >= 0.9 && r >= aim + 0.3
    ensures r == aim + 0.3 || r == 0.9
  {
    if aim + 0.3 > 0.9 then aim + 0.3 else 0.9
  }

  /** Downward pull on an arrow that was not fully charged. */
  function LaunchGravity(aim: real): (r: real)
    ensures 0.0 <= r <= 0.0002
    ensures aim >= 1.0 ==> r == 0.0
    ensures aim <= 0.0 ==> r == 0.0002
  {
    0.0002 * Clamp(1.0 - aim, 0.0, 1.0)
  }

  /** Arrow damage from the bow's base damage, the projectile skill and dexterity. */
  function ArrowDamage(f: Frame): real {
    f.weaponDamage * (1.0 + (f.projectileSkill + f.dexterity) * 0.02)
  }

  /** One arrow of a shot at yaw offset `yaw`. */
  function Shot(aim: real, yaw: real, damage: real, poison: real): Event {
    Throw(LaunchSpeed(aim), yaw, LaunchGravity(aim), damage, poison)
  }

  /** The extra arrows for `i` in [-2, n), skipping 0: the first turns of `for (i = -2; i <= 2; i++)`. */
  function SideShots(aim: real, damage: real, poison: real, n: int): seq<Event>
    decreases n + 2
  {
    if n <= -2 then []
    else SideShots(aim, damage, poison, n - 1)
         + (if n - 1 != 0 then [Shot(aim, SideShotYaw(n - 1), damage, poison)] else [])
  }

  /** The arrow stack after one arrow is taken: a poison charge is used up. */
  function SpendQuiver(q: Quiver): (r: Quiver)
    ensures q.poisonousCount > 0 ==> r.poisonousCount == q.poisonousCount - 1
    ensures q.poisonousCount <= 0 ==> r == q
    ensures r.poisonous == (if q.poisonousCount == 1 then 0.0 else q.poisonous)
  {
    if q.poisonousCount > 0 then
      var count := q.poisonousCount - 1;
      Quiver(if count <= 0 then 0.0 else q.poisonous, count)
    else q
  }

  /** `m_bowAimRotation` moved towards the aimed-at point, each angle within [-90, 90]. */
  function AimRotation(a: Angle, f: Frame): (r: Angle)
    ensures -90.0 <= r.pitch <= 90.0 && -90.0 <= r.yaw <= 90.0 && r.roll == 0.0
  {
    Angle(Clamp(a.pitch + f.aimPitchDelta, -90.0, 90.0), Clamp(a.yaw + f.aimYawDelta, -90.0, 90.0), 0.0)
  }

  /** The first blocks of the bow branch: charge or reset the aim rotation, then the Wait block. */
  function BowStart(s: Combat, f: Frame): Combat {
    var q := s.player;
    var s1 :=
      if Playing(s.layer1, BowCycle) then
        s.(player := q.(bowAimRatio := if q.bowAimRatio + f.bowZoom > 1.0 then 1.0 else q.bowAimRatio + f.bowZoom))
      else s.(player := q.(bowAimRotation := NoRotation));
    if !Playing(s1.layer1, Wait(Bow)) then s1
    else if f.pressed && f.quiver.Some? then
      s1.(player := s1.player.(aimTime := AimRunning), layer1 := ChangeAnimation(s1.layer1, BowDraw1, false),
          isHit := false)
    else s1.(player := s1.player.(aimTime := AimRunning))
  }

  /** The bow branch of `ManageCombatModeAnimations`. */
  function BowPass(x: Ctx, f: Frame): (y: Ctx)
    requires f.fullAimTime > 0
    ensures MainPassKeeps(x.s, y.s) && x.log <= y.log
  {
    var s2 := BowStart(x.s, f);
    var x3 :=
      if Playing(s2.layer1, BowDraw1) && Ended(s2.layer1) then
        Emit(Put(x, s2.(player := s2.player.(aimTime := 0), layer1 := ChangeAnimation(s2.layer1, BowDraw2, false))),
             LinkArrow)
      else Put(x, s2);
    BowDrawn(x3, f)
  }

  /** The bow blocks after the arrow is nocked: full draw, aiming, release and back to Wait. */
  function BowDrawn(x: Ctx, f: Frame): (y: Ctx)
    requires f.fullAimTime > 0
    ensures MainPassKeeps(x.s, y.s) && x.log <= y.log
  {
    var s := x.s;
    var q := s.player;
    if Playing(s.layer1, BowDraw2) && Ended(s.layer1) then
      Put(x, s.(layer1 := ChangeAnimation(s.layer1, BowCycle, true), player := q.(aimTime := AimRunning)))
    else if Playing(s.layer1, BowCycle) then
      var x4 := if f.improvedBowAim then PutPlayer(x, q.(bowAimRotation := AimRotation(q.bowAimRotation, f))) else x;
      if f.pressed then x4 else BowLaunch(x4, f)
    else if Playing(s.layer1, BowRelease) then
      var ratio := if q.bowAimRatio - f.bowZoom < 0.0 then 0.0 else q.bowAimRatio - f.bowZoom;
      if Ended(s.layer1) then
        Emit(Put(x, s.(player := q.(bowAimRatio := 0.0, aimTime := 0, weaponBlocked := Unblocked),
                       layer1 := ChangeAnimation(s.layer1, Wait(Bow), true))), UnlinkArrow)
      else PutPlayer(x, q.(bowAimRatio := ratio))
    else x
  }

  /** Releasing the button while the bow is drawn: the arrow (or five) leaves. */
  function BowLaunch(x: Ctx, f: Frame): (y: Ctx)
    requires f.fullAimTime > 0
    ensures MainPassKeeps(x.s, y.s) && x.log <= y.log
  {
    var y1 := Emit(x, UnlinkArrow);
    var y2 := Emit(Put(y1, y1.s.(layer1 := ChangeAnimation(y1.s.layer1, BowRelease, false))), ScriptStrike(Tag(Bow)));
    var y3 := AimStrike(y2, f);
    var y4 := PutPlayer(y3, y3.s.player.(strikeAimRatio := y3.s.player.bowAimRatio));
    var y5 := if f.quiver.Some? then Emit(y4, SpendArrow(SpendQuiver(f.quiver.value))) else y4;
    var poison0 := if f.quiver.Some? then f.quiver.value.poisonous else 0.0;
    var poison := if f.multiShot && poison0 < 3.0 then 3.0 else poison0;
    if !f.arrowModelOk then y5 else Loose(y5, f, poison)
  }

  /** The arrow model is ready: the arrows fly with the bow's charge as their aim. */
  function Loose(x: Ctx, f: Frame, poison: real): (y: Ctx)
    ensures MainPassKeeps(x.s, y.s) && x.log <= y.log
  {
    var aim := x.s.player.strikeAimRatio;
    var damage := ArrowDamage(f);
    var y1 := Emit(x, Shot(aim, 0.0, damage, poison));
    var y2 := if f.multiShot then Ctx(y1.s, y1.log + SideShots(aim, damage, poison, 3)) else y1;
    PutPlayer(y2, y2.s.player.(aimTime := 0))
  }

  // ---- ManageCombatModeAnimationsEND ----

  /** The ready animations that keep the aim timer running. */
  predicate IsReady(a: Anim) {
    a == BareReady || (a.ReadyPart1? && a.w != Bare) || (a.ReadyPart2? && a.w != Bare)
  }

  /** The last animation of putting a weapon away. */
  predicate IsUnreadyEnd(a: Anim) {
    a == BareUnready || (a.UnreadyPart2? && a.w != Bare)
  }

  /** What the END pass never writes. */
  predicate EndPassKeeps(s: Combat, t: Combat) {
    t.player.strikeDirection == s.player.strikeDirection && t.player.weaponBlocked == s.player.weaponBlocked
    && t.player.bowAimRatio == s.player.bowAimRatio && t.lastWeapon == s.lastWeapon
  }

  /** Ready part 2 ends: wait if a strike is suppressed, else start the queued strike. */
  function FinishReady(s: Combat, w: Weapon): (r: Combat)
    ensures EndPassKeeps(s, r) && r.layer3 == s.layer3
  {
    var q := s.player;
    var s1 :=
      if NoStrike in q.interface then
        s.(player := q.(interface := q.interface - {NoStrike}), layer1 := ChangeAnimation(s.layer1, Wait(w), true))
      else s.(layer1 := ChangeAnimation(s.layer1, StrikeStart(w, q.strikeDirection), false));
    s1.(player := s1.player.(aimTime := AimRunning), isHit := false)
  }

  /** The weapon switch of the END pass, on an ended layer 1. */
  function ReadyEnd(c: Catalogue, x: Ctx, f: Frame): (y: Ctx)
    ensures EndPassKeeps(x.s, y.s) && y.s.layer3 == x.s.layer3 && x.log <= y.log
  {
    var s := x.s;
    var l := s.layer1;
    var w := f.weapon;
    if w == Bare then
      if Playing(l, BareReady) then Put(x, FinishReady(s, Bare)) else x
    else if ReadyPart1(w) !in c.loaded then x
    else if Playing(l, ReadyPart1(w)) then
      Put(Emit(x, AttachToHand), s.(layer1 := ChangeAnimation(l, ReadyPart2(w), false)))
    else if Playing(l, ReadyPart2(w)) then
      if w != Bow then Put(x, FinishReady(s, w))
      else if f.quiver.Some? then
        var s1 :=
          if NoStrike in s.player.interface then
            s.(player := s.player.(interface := s.player.interface - {NoStrike}),
               layer1 := ChangeAnimation(l, Wait(Bow), true))
          else s.(layer1 := ChangeAnimation(l, BowDraw1, false));
        Emit(Put(x, s1.(isHit := false)), UnlinkArrow)
      else Emit(Put(x, s.(layer1 := ChangeAnimation(l, Wait(Bow), false))), UnlinkArrow)
    else if w == Bow && Playing(l, BowDraw1) then Put(x, s.(layer1 := SetAnimation(l, BowDraw2)))
    else if w == Bow && Playing(l, BowDraw2) then Put(x, s.(layer1 := SetAnimation(l, BowCycle)))
    else if Playing(l, UnreadyPart1(w)) then
      Put(Emit(x, AttachToBack), s.(layer1 := ChangeAnimation(l, UnreadyPart2(w), false)))
    else x
  }

  /** The end of a spell-casting animation on layer 1. */
  function CastFinish(c: Catalogue, x: Ctx): (y: Ctx)
    ensures EndPassKeeps(x.s, y.s) && y.s.layer3 == x.s.layer3 && x.log <= y.log
  {
    var s := x.s;
    var l := s.layer1;
    if Cast in c.loaded && Playing(l, Cast) then
      if CastEnd in c.loaded then Put(x, s.(layer1 := ChangeAnimation(l, CastEnd, false))) else x
    else if CastEnd in c.loaded && Playing(l, CastEnd) then
      var s1 := s.(layer1 := ClearLayer(l), player := s.player.(doingMagic := 0));
      if s.willReturnToCombat then
        Emit(Put(x, s1.(player := s1.player.(interface := s1.player.interface + {CombatMode, NoStrike}),
                        willReturnToCombat := false)),
             LaunchReadyWeapon)
      else Put(x, s1)
    else x
  }

  /** The part of the END pass that runs when layer 1 has ended. */
  function LayerOneEnded(c: Catalogue, x: Ctx, f: Frame): (y: Ctx)
    ensures EndPassKeeps(x.s, y.s) && y.s.layer3 == x.s.layer3 && x.log <= y.log
  {
    var l := x.s.layer1;
    var x1 := if l.cur.Some? && IsUnreadyEnd(l.cur.value) then Put(x, x.s.(layer1 := ClearLayer(l))) else x;
    CastFinish(c, ReadyEnd(c, x1, f))
  }

  /** `ManageCombatModeAnimationsEND`. */
  function EndPass(c: Catalogue, x: Ctx, f: Frame): (y: Ctx)
    ensures EndPassKeeps(x.s, y.s) && x.log <= y.log
  {
    var l := x.s.layer1;
    var x1 := if l.cur.Some? && IsReady(l.cur.value) then PutPlayer(x, x.s.player.(aimTime := AimRunning)) else x;
    var x2 := if Ended(l) then LayerOneEnded(c, x1, f) else x1;
    var l3 := x2.s.layer3;
    if Ended(l3) && ShieldEnd in c.loaded && Playing(l3, ShieldEnd)
    then Put(x2, x2.s.(layer3 := ClearLayer(l3)))
    else x2
  }

  // ---- ManageNONCombatModeAnimations ----

  /** The shield arm, layer 3. */
  function ShieldPass(s: Combat, f: Frame): (r: Combat)
    ensures r == s.(layer3 := r.layer3)
  {
    var l := s.layer3;
    if f.leaning then s
    else if f.shieldEquipped && !f.controlsBlocked then
      if l.cur == None || !(Playing(l, ShieldCycle) || Playing(l, ShieldHit) || Playing(l, ShieldStart)) then
        s.(layer3 := ChangeAnimation(l, ShieldStart, false))
      else if Playing(l, ShieldStart) && Ended(l) then
        s.(layer3 := ChangeAnimation(l, ShieldCycle, true))
      else s
    else if Playing(l, ShieldCycle) then s.(layer3 := ChangeAnimation(l, ShieldEnd, false))
    else if Playing(l, ShieldEnd) && Ended(l) then s.(layer3 := ClearLayer(l))
    else s
  }
}
