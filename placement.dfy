/**
 * Where the target may be put: `rand` and the padded, clamped range that
 * `placeController` draws each coordinate from.
 */
module Placement {
  import opened Common

  /** Margin kept between the field's edges and the target, in pixels. */
  const Pad: int := 10

  /** A value returned by `Math.random()`: a number in [0, 1). */
  type Sample = u: real | 0.0 <= u < 1.0 witness 0.0

  /** The layout read at placement time: the field's client size and the target's (square) size. */
  datatype Geometry = Geometry(fieldWidth: nat, fieldHeight: nat, size: nat)

  /** The two `Math.random()` samples one placement consumes, for x and then y. */
  datatype Draw = Draw(ux: Sample, uy: Sample)

  /** A target position: the `left` and `top` offsets inside the field. */
  datatype Pos = Pos(x: int, y: int)

  lemma ScaledFloorBounds(u: Sample, k: int)
    ensures k > 0 ==> 0 <= (u * k as real).Floor < k
    ensures k <= 0 ==> k <= (u * k as real).Floor <= 0
  {
    if k > 0 {
      assert 0.0 <= u * k as real;
      assert u * k as real < k as real by {
        assert (k as real) - u * k as real == (1.0 - u) * k as real;
      }
    } else if k < 0 {
      assert u * k as real <= 0.0 by {
        assert u * k as real == -(u * (-k) as real);
      }
      assert (k as real) < u * k as real by {
        assert u * k as real - k as real == (1.0 - u) * (-k) as real;
      }
    }
  }

  /**
   * `Math.floor(Math.random() * (max - min + 1)) + min` with the sample `u`
   * in place of `Math.random()`. On a well-formed range it lands in [lo, hi];
   * on a reversed one it lands in (hi, lo].
   */
  function Rand(lo: int, hi: int, u: Sample): (v: int)
    ensures lo <= hi ==> lo <= v <= hi
    ensures hi < lo ==> hi < v <= lo
  {
    ScaledFloorBounds(u, hi - lo + 1);
    (u * (hi - lo + 1) as real).Floor + lo
  }

  /** Every value of a well-formed range is drawn by some sample. */
  lemma RandReaches(lo: int, hi: int, v: int)
    requires lo <= v <= hi
    ensures exists u: Sample :: Rand(lo, hi, u) == v
  {
    var k := (hi - lo + 1) as real;
    var u := (v - lo) as real / k;
    assert u * k == (v - lo) as real;
    assert 0.0 <= u < 1.0 by {
      assert (v - lo) as real < k;
    }
    var s: Sample := u;
    assert Rand(lo, hi, s) == v;
  }

  /**
   * `Math.max(pad, extent - size - pad)`: the largest offset drawn on one
   * axis. It is never below Pad, so the range [Pad, AxisMax] is never empty;
   * when the field has room for the target and both margins, a target at
   * that offset ends exactly Pad before the far edge; otherwise it is Pad.
   */
  function AxisMax(extent: int, size: int): (hi: int)
    ensures Pad <= hi
    ensures extent >= size + 2 * Pad ==> hi + size + Pad == extent
    ensures extent < size + 2 * Pad ==> hi == Pad
  {
    Max(Pad, extent - size - Pad)
  }

  /** True when the target fits in the field together with both margins on both axes. */
  predicate Fits(g: Geometry)
  {
    g.fieldWidth >= g.size + 2 * Pad && g.fieldHeight >= g.size + 2 * Pad
  }

  /** The position one call of `placeController` computes. */
  function Placed(g: Geometry, d: Draw): (p: Pos)
    ensures Pad <= p.x <= AxisMax(g.fieldWidth, g.size)
    ensures Pad <= p.y <= AxisMax(g.fieldHeight, g.size)
    ensures g.fieldWidth < g.size + 2 * Pad ==> p.x == Pad
    ensures g.fieldHeight < g.size + 2 * Pad ==> p.y == Pad
    ensures Fits(g) ==> p.x + g.size + Pad <= g.fieldWidth && p.y + g.size + Pad <= g.fieldHeight
  {
    Pos(Rand(Pad, AxisMax(g.fieldWidth, g.size), d.ux),
        Rand(Pad, AxisMax(g.fieldHeight, g.size), d.uy))
  }

  /**
   * The two axes are drawn independently, so every position of the padded
   * rectangle is produced by some pair of samples.
   */
  lemma EveryPositionReachable(g: Geometry, x: int, y: int)
    requires Pad <= x <= AxisMax(g.fieldWidth, g.size)
    requires Pad <= y <= AxisMax(g.fieldHeight, g.size)
    ensures exists d: Draw :: Placed(g, d) == Pos(x, y)
  {
    RandReaches(Pad, AxisMax(g.fieldWidth, g.size), x);
    RandReaches(Pad, AxisMax(g.fieldHeight, g.size), y);
    var ux: Sample :| Rand(Pad, AxisMax(g.fieldWidth, g.size), ux) == x;
    var uy: Sample :| Rand(Pad, AxisMax(g.fieldHeight, g.size), uy) == y;
    assert Placed(g, Draw(ux, uy)) == Pos(x, y);
  }
}
