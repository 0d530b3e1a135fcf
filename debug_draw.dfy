/**
 * The state-keeping parts of the debug overlay: the debug view selector,
 * the list of timed debug rays, and the placement of a texture label.
 */
module DebugDraw {

  // ---- The debug view selector ----

  /** `DebugView_None`, the view shown when the overlay is off. */
  const DebugViewNone: int := 0

  /** `DebugView_Damages`, the last real view. */
  const DebugViewDamages: int := 11

  /** `DebugViewCount`, one past the last real view. */
  const DebugViewCount: int := 12

  /** A real debug view: one of `DebugView_None` .. `DebugView_Damages`. */
  predicate IsView(v: int) {
    0 <= v < DebugViewCount
  }

  /** The view after `v`: the next one, wrapping from the last real view to none. */
  function NextView(v: int): (r: int)
    requires IsView(v)
    ensures IsView(r) && r != DebugViewCount
    ensures v < DebugViewDamages ==> r == v + 1
    ensures v == DebugViewDamages ==> r == DebugViewNone
  {
    var n := v + 1;
    if n == DebugViewCount then DebugViewNone else n
  }

  /** The view after `n` presses of the cycling key. */
  function Cycled(v: int, n: nat): (r: int)
    requires IsView(v)
    ensures IsView(r)
  {
    if n == 0 then v else NextView(Cycled(v, n - 1))
  }

  /** Cycling moves through the views in order, modulo their number. */
  lemma {:induction false} CycledIsModular(v: int, n: nat)
    requires IsView(v)
    ensures Cycled(v, n) == (v + n) % DebugViewCount
  {
    if n > 0 {
      CycledIsModular(v, n - 1);
    }
  }

  /** Pressing the key once per view comes back to the starting view, and not earlier. */
  lemma FullCycle(v: int, n: nat)
    requires IsView(v)
    ensures Cycled(v, DebugViewCount) == v
    ensures 0 < n < DebugViewCount ==> Cycled(v, n) != v
  {
    CycledIsModular(v, DebugViewCount);
    CycledIsModular(v, n);
  }

  /** The global `g_debugView`. */
  class DebugViews {
    var view: int

    ghost predicate Valid()
      reads this
    {
      IsView(view)
    }

    constructor ()
      ensures Valid() && view == DebugViewNone
    {
      view := DebugViewNone;
    }

    /** `drawDebugCycleViews`. */
    method CycleViews()
      requires Valid()
      modifies this
      ensures Valid() && view == NextView(old(view))
    {
      view := view + 1;
      if view == DebugViewCount {
        view := DebugViewNone;
      }
    }
  }

  // ---- Timed debug rays ----

  datatype Vec3 = Vec3(x: real, y: real, z: real)

  datatype Color = Color(r: int, g: int, b: int, a: int)

  /** A ray drawn every frame until the platform time passes `expiration`. */
  datatype DebugRay = DebugRay(start: Vec3, dir: Vec3, color: Color, expiration: int)

  /** The rays of `s` that have not expired at `now`, in order. */
  function Live(s: seq<DebugRay>, now: int): (r: seq<DebugRay>)
    ensures |r| <= |s|
    ensures forall k :: 0 <= k < |r| ==> r[k].expiration >= now
  {
    if s == [] then []
    else Live(s[..|s| - 1], now) + (if s[|s| - 1].expiration >= now then [s[|s| - 1]] else [])
  }

  /** The live part holds exactly the rays that have not expired. */
  lemma {:induction false} LiveMembers(s: seq<DebugRay>, now: int, x: DebugRay)
    ensures x in Live(s, now) <==> x in s && x.expiration >= now
  {
    if s != [] {
      LiveMembers(s[..|s| - 1], now, x);
      assert s == s[..|s| - 1] + [s[|s| - 1]];
    }
  }

  /** The number of rays of `s` that have expired at `now`. */
  function Expired(s: seq<DebugRay>, now: int): nat {
    if s == [] then 0
    else Expired(s[..|s| - 1], now) + (if s[|s| - 1].expiration < now then 1 else 0)
  }

  /** Every ray is live or expired. */
  lemma {:induction false} LiveAndExpired(s: seq<DebugRay>, now: int)
    ensures |Live(s, now)| + Expired(s, now) == |s|
  {
    if s != [] {
      LiveAndExpired(s[..|s| - 1], now);
    }
  }

  lemma {:induction false} LiveAppend(a: seq<DebugRay>, b: seq<DebugRay>, now: int)
    ensures Live(a + b, now) == Live(a, now) + Live(b, now)
    decreases |b|
  {
    if b == [] {
      assert a + b == a;
    } else {
      var ab := a + b;
      assert ab[..|ab| - 1] == a + b[..|b| - 1];
      assert ab[|ab| - 1] == b[|b| - 1];
      LiveAppend(a, b[..|b| - 1], now);
    }
  }

  /** A sequence whose rays are all live is its own live part. */
  lemma {:induction false} AllLive(s: seq<DebugRay>, now: int)
    requires forall k :: 0 <= k < |s| ==> s[k].expiration >= now
    ensures Live(s, now) == s
  {
    if s != [] {
      AllLive(s[..|s| - 1], now);
    }
  }

  /** `std::swap(v[i], v.back()); v.pop_back();`. */
  function SwapPop(s: seq<DebugRay>, i: nat): (r: seq<DebugRay>)
    requires i < |s|
    ensures |r| == |s| - 1
    ensures forall k :: 0 <= k < |r| && k != i ==> r[k] == s[k]
    ensures i < |r| ==> r[i] == s[|s| - 1]
  {
    s[i := s[|s| - 1]][..|s| - 1]
  }

  /** The live rays of three pieces, counted with multiplicity. */
  lemma LiveOfThree(a: seq<DebugRay>, b: seq<DebugRay>, c: seq<DebugRay>, now: int)
    ensures multiset(Live(a + b + c, now)) == multiset(Live(a, now)) + multiset(Live(b, now)) + multiset(Live(c, now))
  {
    LiveAppend(a + b, c, now);
    LiveAppend(a, b, now);
  }

  /** An expired ray has no live part. */
  lemma DeadRay(x: DebugRay, now: int)
    requires x.expiration < now
    ensures Live([x], now) == []
  {
    assert [x][..0] == [];
  }

  /** Dropping an expired last ray keeps the live rays. */
  lemma PopKeepsLive(r: seq<DebugRay>, x: DebugRay, now: int)
    requires x.expiration < now
    ensures multiset(Live(r + [x], now)) == multiset(Live(r, now))
  {
    DeadRay(x, now);
    LiveAppend(r, [x], now);
  }

  /** Moving the last ray into the place of an expired one keeps the live rays. */
  lemma MoveLastKeepsLive(head: seq<DebugRay>, x: DebugRay, mid: seq<DebugRay>, last: DebugRay, now: int)
    requires x.expiration < now
    ensures multiset(Live(head + [last] + mid, now)) == multiset(Live(head + [x] + mid + [last], now))
  {
    DeadRay(x, now);
    LiveOfThree(head + [x], mid, [last], now);
    LiveOfThree(head, [last], mid, now);
    LiveAppend(head, [x], now);
    assert head + [x] == head + [x] + [];
  }

  /** Removing an expired ray by swapping it with the last one keeps the live rays, in some order. */
  lemma SwapPopKeepsLive(s: seq<DebugRay>, i: nat, now: int)
    requires i < |s| && s[i].expiration < now
    ensures multiset(Live(SwapPop(s, i), now)) == multiset(Live(s, now))
  {
    var n := |s|;
    if i == n - 1 {
      assert s == SwapPop(s, i) + [s[i]];
      PopKeepsLive(SwapPop(s, i), s[i], now);
    } else {
      assert s == s[..i] + [s[i]] + s[i + 1..n - 1] + [s[n - 1]];
      assert SwapPop(s, i) == s[..i] + [s[n - 1]] + s[i + 1..n - 1];
      MoveLastKeepsLive(s[..i], s[i], s[i + 1..n - 1], s[n - 1], now);
    }
  }

  /** The static `debugRays` vector. */
  class DebugRays {
    var rays: seq<DebugRay>

    constructor ()
      ensures rays == []
    {
      rays := [];
    }

    /** `debug::drawRay`: one more ray, living `duration` past the start of the frame. */
    method DrawRay(start: Vec3, dir: Vec3, color: Color, duration: int, frameStart: int)
      modifies this
      ensures rays == old(rays) + [DebugRay(start, dir, color, frameStart + duration)]
    {
      rays := rays + [DebugRay(start, dir, color, frameStart + duration)];
    }

    /**
     * The expiry loop of `updateAndRenderDebugDrawables`: an expired ray is
     * replaced by the last one, the vector shrinks, and the same index is
     * looked at again. The index is signed, as the unsigned one in the
     * engine wraps to -1 and back.
     */
    method ExpireRays(now: int)
      modifies this
      ensures forall k :: 0 <= k < |rays| ==> rays[k].expiration >= now
      ensures multiset(rays) == multiset(Live(old(rays), now))
      ensures |rays| == |old(rays)| - Expired(old(rays), now)
    {
      var i: int := 0;
      while i < |rays|
        invariant 0 <= i <= |rays|
        invariant forall k :: 0 <= k < i ==> rays[k].expiration >= now
        invariant multiset(Live(rays, now)) == multiset(Live(old(rays), now))
        decreases |rays| - i
      {
        if rays[i].expiration < now {
          SwapPopKeepsLive(rays, i, now);
          rays := SwapPop(rays, i);
          i := i - 1;
        }
        i := i + 1;
      }
      AllLive(rays, now);
      LiveAndExpired(old(rays), now);
    }
  }

  // ---- Texture label placement ----

  /**
   * The left edge of a texture label in `drawDebugMaterialTexture`: centred
   * on the anchor, pushed right to keep a 5 pixel margin from the left of
   * the screen, else pulled left to keep that margin on the right. The
   * three parts are the widths of the type, name and format texts; the first
   * two get 10 pixels of spacing.
   */
  method PlaceLabel(anchorX: int, typeWidth: nat, nameWidth: nat, formatWidth: nat, left: int, right: int)
    returns (x: int)
    ensures var w := typeWidth + nameWidth + formatWidth + 20; var centred := anchorX - w / 2;
      (centred < left + 5 ==> x == left + 5)
      && (centred >= left + 5 && centred + w > right - 5 ==> x + w == right - 5 && x < centred)
      && (centred >= left + 5 && centred + w <= right - 5 ==> x == centred)
      && (w <= (right - 5) - (left + 5) ==> left + 5 <= x && x + w <= right - 5)
  {
    var typeS := typeWidth + 10;
    var nameS := nameWidth + 10;
    var formatS := formatWidth;
    x := anchorX;
    x := x - (typeS + nameS + formatS) / 2;
    if x < left + 5 {
      x := left + 5;
    } else if x + typeS + nameS + formatS > right - 5 {
      x := right - 5 - (typeS + nameS + formatS);
    }
  }
}
