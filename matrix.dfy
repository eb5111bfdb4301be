// The per-frame transform of the points layer (src/js/glify/points.js): a
// 16-entry column-major 4×4 matrix that takes zoom-0 world pixels to WebGL clip
// space. These functions specify the in-place methods of the layer class.

module Matrix {

  /** `[2/w,0,0,0, 0,-2/h,0,0, 0,0,0,0, -1,1,0,1]`: canvas pixels to clip space,
      y flipped so that the canvas's top-left corner lands on (-1, 1). */
  function Base(w: real, h: real): (m: seq<real>)
    requires w != 0.0 && h != 0.0
    ensures |m| == 16
  {
    [2.0 / w, 0.0, 0.0, 0.0,  0.0, -2.0 / h, 0.0, 0.0,  0.0, 0.0, 0.0, 0.0,  -1.0, 1.0, 0.0, 1.0]
  }

  /** scaleMatrix: entries 0–3 (the x basis column) times sx, entries 4–7 (the
      y basis column) times sy. */
  function Scaled(m: seq<real>, sx: real, sy: real): (r: seq<real>)
    requires |m| == 16
    ensures |r| == 16
  {
    seq(16, i requires 0 <= i < 16 => if i < 4 then m[i] * sx else if i < 8 then m[i] * sy else m[i])
  }

  /** translateMatrix: the translation column, entries 12–15, moves by tx times
      the x basis column plus ty times the y basis column. */
  function Translated(m: seq<real>, tx: real, ty: real): (r: seq<real>)
    requires |m| == 16
    ensures |r| == 16
  {
    seq(16, i requires 0 <= i < 16 => if i < 12 then m[i] else m[i] + (m[i - 12] * tx + m[i - 8] * ty))
  }

  lemma ScaledChangesOnlyBasis(m: seq<real>, sx: real, sy: real)
    requires |m| == 16
    ensures forall i :: 8 <= i < 16 ==> Scaled(m, sx, sy)[i] == m[i]
    ensures forall i :: 0 <= i < 4 ==> Scaled(m, sx, sy)[i] == m[i] * sx
    ensures forall i :: 4 <= i < 8 ==> Scaled(m, sx, sy)[i] == m[i] * sy
  {
  }

  lemma TranslatedChangesOnlyTranslation(m: seq<real>, tx: real, ty: real)
    requires |m| == 16
    ensures forall i :: 0 <= i < 12 ==> Translated(m, tx, ty)[i] == m[i]
    ensures forall i :: 12 <= i < 16 ==> Translated(m, tx, ty)[i] == m[i] + (m[i - 12] * tx + m[i - 8] * ty)
  {
  }

  /** A matrix whose first eight entries are the scaled entries and whose last
      eight are untouched is the scaled one: the form in which scaleMatrix
      updates the array, one entry at a time. */
  lemma ScaledEntries(m: seq<real>, n: seq<real>, sx: real, sy: real)
    requires |m| == 16 && |n| == 16
    requires && n[0] == m[0] * sx && n[1] == m[1] * sx && n[2] == m[2] * sx && n[3] == m[3] * sx
             && n[4] == m[4] * sy && n[5] == m[5] * sy && n[6] == m[6] * sy && n[7] == m[7] * sy
             && n[8..] == m[8..]
    ensures n == Scaled(m, sx, sy)
  {
    var r := Scaled(m, sx, sy);
    assert forall i | 0 <= i < 4 :: n[i] == r[i];
    assert forall i | 4 <= i < 8 :: n[i] == r[i];
    assert forall i | 8 <= i < 16 :: n[i] == m[8..][i - 8] == r[i];
  }

  /** Likewise for translateMatrix: the first twelve entries untouched, the
      last four moved by the basis columns. */
  lemma TranslatedEntries(m: seq<real>, n: seq<real>, tx: real, ty: real)
    requires |m| == 16 && |n| == 16
    requires && n[..12] == m[..12]
             && n[12] == m[12] + (m[0] * tx + m[4] * ty) && n[13] == m[13] + (m[1] * tx + m[5] * ty)
             && n[14] == m[14] + (m[2] * tx + m[6] * ty) && n[15] == m[15] + (m[3] * tx + m[7] * ty)
    ensures n == Translated(m, tx, ty)
  {
    var r := Translated(m, tx, ty);
    TranslatedChangesOnlyTranslation(m, tx, ty);
    assert r[..12] == m[..12];
    SameEntries(n, r);
  }

  /** Two matrices that agree on the first twelve entries and on each of the
      last four are equal. */
  lemma SameEntries(n: seq<real>, r: seq<real>)
    requires |n| == 16 && |r| == 16
    requires n[..12] == r[..12] && n[12] == r[12] && n[13] == r[13] && n[14] == r[14] && n[15] == r[15]
    ensures n == r
  {
    assert forall i | 0 <= i < 12 :: n[i] == n[..12][i] == r[i];
  }

  lemma ScaledByOne(m: seq<real>)
    requires |m| == 16
    ensures Scaled(m, 1.0, 1.0) == m
  {
  }

  lemma TranslatedByZero(m: seq<real>)
    requires |m| == 16
    ensures Translated(m, 0.0, 0.0) == m
  {
  }

  /** Scales compose by multiplying their factors. */
  lemma ScaledTwice(m: seq<real>, a: real, b: real, c: real, d: real)
    requires |m| == 16
    ensures Scaled(Scaled(m, a, b), c, d) == Scaled(m, a * c, b * d)
  {
    var once := Scaled(m, a, b);
    var l := Scaled(once, c, d);
    var r := Scaled(m, a * c, b * d);
    ScaledChangesOnlyBasis(m, a, b);
    ScaledChangesOnlyBasis(once, c, d);
    ScaledChangesOnlyBasis(m, a * c, b * d);
    forall i | 0 <= i < 16 ensures l[i] == r[i] {
      if i < 4 {
        Associate(m[i], a, c);
      } else if i < 8 {
        Associate(m[i], b, d);
      }
    }
  }

  lemma Associate(x: real, a: real, c: real)
    ensures (x * a) * c == x * (a * c)
  {
  }

  /** Translations compose by adding their offsets: they read only the basis
      columns, which they do not change. */
  lemma TranslatedTwice(m: seq<real>, a: real, b: real, c: real, d: real)
    requires |m| == 16
    ensures Translated(Translated(m, a, b), c, d) == Translated(m, a + c, b + d)
  {
    var l := Translated(Translated(m, a, b), c, d);
    var r := Translated(m, a + c, b + d);
    forall i | 0 <= i < 16 ensures l[i] == r[i] {
      if 12 <= i {
        assert l[i] == m[i] + m[i - 12] * a + m[i - 8] * b + m[i - 12] * c + m[i - 8] * d;
        assert r[i] == m[i] + m[i - 12] * (a + c) + m[i - 8] * (b + d);
      }
    }
  }

  /** Translating after scaling moves by the scaled basis: it is the same as
      translating by (sx·tx, sy·ty) first. */
  lemma ScaleThenTranslate(m: seq<real>, sx: real, sy: real, tx: real, ty: real)
    requires |m| == 16
    ensures Translated(Scaled(m, sx, sy), tx, ty) == Scaled(Translated(m, sx * tx, sy * ty), sx, sy)
  {
    var l := Translated(Scaled(m, sx, sy), tx, ty);
    var r := Scaled(Translated(m, sx * tx, sy * ty), sx, sy);
    forall i | 0 <= i < 16 ensures l[i] == r[i] {
      if 12 <= i {
        assert l[i] == m[i] + (m[i - 12] * sx) * tx + (m[i - 8] * sy) * ty;
        assert r[i] == m[i] + m[i - 12] * (sx * tx) + m[i - 8] * (sy * ty);
      }
    }
  }

  /** On the base matrix, scaling by s and translating by (tx, ty) give a
      different matrix in the two orders exactly when s ≠ 1 and the offset is
      not zero. */
  lemma OrderMatters(w: real, h: real, s: real, tx: real, ty: real)
    requires w != 0.0 && h != 0.0
    ensures Translated(Scaled(Base(w, h), s, s), tx, ty) != Scaled(Translated(Base(w, h), tx, ty), s, s)
            <==> s != 1.0 && (tx != 0.0 || ty != 0.0)
  {
    var b := Base(w, h);
    var st := Translated(Scaled(b, s, s), tx, ty);
    var ts := Scaled(Translated(b, tx, ty), s, s);
    assert st[12] == -1.0 + (2.0 / w * s) * tx;
    assert ts[12] == -1.0 + (2.0 / w) * tx;
    assert st[13] == 1.0 + (-2.0 / h * s) * ty;
    assert ts[13] == 1.0 + (-2.0 / h) * ty;
    if s != 1.0 && tx != 0.0 {
      ScaleMoves(2.0 / w, s, tx);
      assert st[12] != ts[12];
    } else if s != 1.0 && ty != 0.0 {
      ScaleMoves(-2.0 / h, s, ty);
      assert st[13] != ts[13];
    } else if s == 1.0 {
      ScaledByOne(b);
      ScaledByOne(Translated(b, tx, ty));
    } else {
      TranslatedByZero(b);
      TranslatedByZero(Scaled(b, s, s));
    }
  }

  lemma ScaleMoves(k: real, s: real, t: real)
    requires k != 0.0 && s != 1.0 && t != 0.0
    ensures (k * s) * t != k * t
  {
    assert (k * s) * t - k * t == k * t * (s - 1.0);
    assert k * t != 0.0;
  }

  // ---------------------------------------------------------------------------
  // The frame of drawOnCanvas

  /** Math.pow(2, zoom) for a whole zoom level. */
  function Pow2(zoom: int): (p: real)
    ensures p > 0.0
    decreases if zoom < 0 then -zoom else zoom
  {
    if zoom == 0 then 1.0
    else if zoom > 0 then 2.0 * Pow2(zoom - 1)
    else Pow2(zoom + 1) / 2.0
  }

  lemma {:induction false} Pow2Step(zoom: int)
    ensures Pow2(zoom + 1) == 2.0 * Pow2(zoom)
    decreases if zoom < 0 then -zoom else zoom
  {
    if zoom < -1 {
      Pow2Step(zoom + 1);
    }
  }

  /** The matrix of a frame: the base matrix scaled by `scale` (2^zoom), then
      translated by minus the world-pixel offset of the viewport's top-left
      corner. */
  function Frame(w: real, h: real, scale: real, ox: real, oy: real): (m: seq<real>)
    requires w != 0.0 && h != 0.0
    ensures |m| == 16
  {
    Translated(Scaled(Base(w, h), scale, scale), -ox, -oy)
  }

  /** Where a column-major 4×4 matrix sends the point (px, py, 0, 1): its x
      and y clip coordinates. */
  function Apply(m: seq<real>, px: real, py: real): (real, real)
    requires |m| == 16
  {
    (m[0] * px + m[4] * py + m[12], m[1] * px + m[5] * py + m[13])
  }

  /** The base matrix takes canvas pixel (cx, cy) to clip coordinates
      (2·cx/w - 1, 1 - 2·cy/h): the canvas's top-left corner to (-1, 1) and its
      bottom-right corner to (1, -1). */
  lemma BaseMapsCanvasToClip(w: real, h: real, cx: real, cy: real)
    requires w != 0.0 && h != 0.0
    ensures Apply(Base(w, h), cx, cy) == ((2.0 / w) * cx - 1.0, 1.0 - (2.0 / h) * cy)
  {
    var b := Base(w, h);
    assert b[0] == 2.0 / w && b[4] == 0.0 && b[12] == -1.0;
    assert b[1] == 0.0 && b[5] == -2.0 / h && b[13] == 1.0;
    NegatedQuotient(h);
    assert b[5] * cy == -((2.0 / h) * cy);
    var r := Apply(b, cx, cy);
    assert r.0 == b[0] * cx + b[4] * cy + b[12];
    assert r.0 == (2.0 / w) * cx - 1.0;
    assert r.1 == b[1] * cx + b[5] * cy + b[13];
    assert r.1 == 1.0 - (2.0 / h) * cy;
  }

  lemma NegatedQuotient(h: real)
    requires h != 0.0
    ensures -2.0 / h == -(2.0 / h)
  {
  }

  lemma BaseCorners(w: real, h: real)
    requires w != 0.0 && h != 0.0
    ensures Apply(Base(w, h), 0.0, 0.0) == (-1.0, 1.0)
    ensures Apply(Base(w, h), w, h) == (1.0, -1.0)
  {
    BaseMapsCanvasToClip(w, h, 0.0, 0.0);
    BaseMapsCanvasToClip(w, h, w, h);
    assert (2.0 / w) * w == 2.0;
    assert (2.0 / h) * h == 2.0;
  }

  /** Scaling by s and then translating by (-ox, -oy) sends (px, py) where
      the original matrix sends (s·(px - ox), s·(py - oy)). */
  lemma ApplyScaledShifted(m: seq<real>, s: real, ox: real, oy: real, px: real, py: real)
    requires |m| == 16
    ensures Apply(Translated(Scaled(m, s, s), -ox, -oy), px, py) == Apply(m, s * (px - ox), s * (py - oy))
  {
    var f := Translated(Scaled(m, s, s), -ox, -oy);
    assert f[0] == m[0] * s && f[4] == m[4] * s && f[12] == m[12] + (m[0] * s) * -ox + (m[4] * s) * -oy;
    assert f[1] == m[1] * s && f[5] == m[5] * s && f[13] == m[13] + (m[1] * s) * -ox + (m[5] * s) * -oy;
    Distribute(m[0], m[4], m[12], s, px, py, ox, oy);
    Distribute(m[1], m[5], m[13], s, px, py, ox, oy);
    var lhs := Apply(f, px, py);
    var rhs := Apply(m, s * (px - ox), s * (py - oy));
    assert lhs.0 == rhs.0;
    assert lhs.1 == rhs.1;
  }

  lemma Distribute(a: real, b: real, c: real, s: real, px: real, py: real, ox: real, oy: real)
    ensures (a * s) * px + (b * s) * py + (c + (a * s) * -ox + (b * s) * -oy) == a * (s * (px - ox)) + b * (s * (py - oy)) + c
  {
  }

  /** The frame takes the zoom-0 world pixel p to the clip position of canvas
      pixel scale·(p - o): the world is shifted so that the offset o is the
      canvas origin, then magnified by the scale. */
  lemma FrameMapsWorldToCanvas(w: real, h: real, scale: real, ox: real, oy: real, px: real, py: real)
    requires w != 0.0 && h != 0.0
    ensures Apply(Frame(w, h, scale, ox, oy), px, py) == Apply(Base(w, h), scale * (px - ox), scale * (py - oy))
  {
    ApplyScaledShifted(Base(w, h), scale, ox, oy, px, py);
  }

  /** The viewport's own top-left corner is drawn at the top-left of the canvas. */
  lemma FrameCornerIsTopLeft(w: real, h: real, scale: real, ox: real, oy: real)
    requires w != 0.0 && h != 0.0
    ensures Apply(Frame(w, h, scale, ox, oy), ox, oy) == (-1.0, 1.0)
  {
    FrameMapsWorldToCanvas(w, h, scale, ox, oy, ox, oy);
    BaseCorners(w, h);
    assert scale * (ox - ox) == 0.0 && scale * (oy - oy) == 0.0;
  }

  /** At zoom 0 with no offset the frame is the base matrix. */
  lemma FrameAtOrigin(w: real, h: real)
    requires w != 0.0 && h != 0.0
    ensures Frame(w, h, Pow2(0), 0.0, 0.0) == Base(w, h)
  {
    ScaledByOne(Base(w, h));
    TranslatedByZero(Base(w, h));
  }

  /** `Math.max(zoom - 4, 1)`: the point size of a frame. */
  function PointSize(zoom: int): (size: real)
    ensures size >= 1.0
    ensures size == 1.0 || size == (zoom - 4) as real
    ensures size >= (zoom - 4) as real
  {
    if (zoom - 4) as real > 1.0 then (zoom - 4) as real else 1.0
  }
}
