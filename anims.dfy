/**
 * The player's animation catalogue and animation layers.
 *
 * The engine keeps the player's animations in a flat array of handles
 * indexed by enum arithmetic (`ANIM_BARE_STRIKE_LEFT_START + j * 3`); here
 * each role is a constructor of `Anim`, parametrised by the weapon family and
 * the strike direction, so a role and a direction can never be confused.
 */
module Anims {

  datatype Option<+T> = None | Some(value: T)

  /** The weapon families `ARX_EQUIPMENT_GetPlayerWeaponType` distinguishes. */
  datatype Weapon = Bare | Dagger | OneHanded | TwoHanded | Bow

  /** One of the four strike directions (left, right, top, bottom). */
  type Dir = d: int | 0 <= d < 4

  /**
   * The animation roles the combat sequencer refers to.
   * `Recover(w, d)` is the swing played after the strike button is released
   * (`ANIM_*_STRIKE_LEFT + 3 * d` in the engine's table).
   * `BowDraw1`, `BowDraw2`, `BowCycle` and `BowRelease` are the bow's
   * `ANIM_MISSILE_STRIKE_PART_1`, `_PART_2`, `_CYCLE` and `ANIM_MISSILE_STRIKE`.
   */
  datatype Anim =
    | Wait(w: Weapon)
    | StrikeStart(w: Weapon, d: Dir)
    | StrikeCycle(w: Weapon, d: Dir)
    | Recover(w: Weapon, d: Dir)
    | BareReady
    | BareUnready
    | ReadyPart1(w: Weapon)
    | ReadyPart2(w: Weapon)
    | UnreadyPart1(w: Weapon)
    | UnreadyPart2(w: Weapon)
    | BowDraw1
    | BowDraw2
    | BowCycle
    | BowRelease
    | Cast
    | CastEnd
    | ShieldStart
    | ShieldCycle
    | ShieldHit
    | ShieldEnd

  /** Layer flags: `EA_ANIMEND`, `EA_LOOP`, `EA_PAUSED`, `EA_REVERSE`. */
  datatype AnimFlag = AnimEnd | Loop | Paused | Reverse

  /** One animation layer of the player: current animation, flags, elapsed time. */
  datatype Layer = Layer(cur: Option<Anim>, flags: set<AnimFlag>, ctime: int)

  /**
   * The player's loaded animation handles and their durations
   * (`anim_time` of the variant the layer plays).
   */
  datatype Catalogue = Catalogue(loaded: set<Anim>, duration: Anim -> nat)

  /** Whether the layer currently plays `a`. */
  predicate Playing(l: Layer, a: Anim) {
    l.cur == Some(a)
  }

  predicate Ended(l: Layer) {
    AnimEnd in l.flags
  }

  /**
   * `ANIM_Set`: start `a` from the beginning. The end, loop and pause
   * flags of the previous animation are dropped; other flags are kept.
   */
  function SetAnimation(l: Layer, a: Anim): (r: Layer)
    ensures Playing(r, a) && r.ctime == 0 && !Ended(r)
    ensures Loop !in r.flags && Paused !in r.flags
    ensures Reverse in r.flags <==> Reverse in l.flags
  {
    Layer(Some(a), l.flags - {AnimEnd, Loop, Paused}, 0)
  }

  /**
   * `changeAnimation(io, layer, a[, EA_LOOP])`: `ANIM_Set` followed by
   * adding the requested use flags (only `EA_LOOP` is ever requested here).
   */
  function ChangeAnimation(l: Layer, a: Anim, loop: bool): (r: Layer)
    ensures Playing(r, a) && r.ctime == 0 && !Ended(r)
    ensures Loop in r.flags <==> loop
    ensures Paused !in r.flags
    ensures Reverse in r.flags <==> Reverse in l.flags
  {
    var s := SetAnimation(l, a);
    if loop then s.(flags := s.flags + {Loop}) else s
  }

  /** `layer.cur_anim = NULL`: flags and time are left as they are. */
  function ClearLayer(l: Layer): (r: Layer)
    ensures r.cur == None && r.flags == l.flags && r.ctime == l.ctime
  {
    l.(cur := None)
  }
}
