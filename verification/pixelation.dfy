/**
 * The block arithmetic of the gallery's pixelation: the image is drawn
 * into a grid of `ceil(w / pixelSize)` by `ceil(h / pixelSize)` cells and
 * stretched back to full size, so each cell becomes one solid block.
 */
module Pixelation {

  /** Blocks across the image per pixelation level. */
  const BlocksPerLevel := 20

  /** The pixelation level the gallery uses (`useState(3)`, never changed). */
  const GalleryLevel := 3

  /** `Math.ceil(a / b)` for a non-negative `a` and positive `b`. */
  function CeilDiv(a: nat, b: nat): (q: nat)
    requires b > 0
    ensures q * b >= a
    ensures q == 0 || (q - 1) * b < a
  {
    (a + b - 1) / b
  }

  /**
   * `Math.max(1, Math.floor(width / (level * 20)))`: the largest block size
   * that still leaves `20 * level` whole blocks across, or 1 when the image
   * is narrower than that.
   */
  function PixelSize(width: nat, level: nat): (ps: nat)
    requires level > 0
    ensures ps >= 1
    ensures width < level * BlocksPerLevel ==> ps == 1
    ensures width >= level * BlocksPerLevel ==>
      ps * (level * BlocksPerLevel) <= width < (ps + 1) * (level * BlocksPerLevel)
  {
    var k := level * BlocksPerLevel;
    var q := width / k;
    if q < 1 then 1 else q
  }

  /** The block size and the size of the small drawing. */
  datatype Grid = Grid(pixelSize: nat, smallWidth: nat, smallHeight: nat)

  /**
   * The grid for a `width` x `height` image: enough cells to cover the
   * image, and never more cells than pixels.
   */
  function Downsample(width: nat, height: nat, level: nat): (g: Grid)
    requires level > 0
    ensures g.pixelSize == PixelSize(width, level)
    ensures g.smallWidth == CeilDiv(width, g.pixelSize) && g.smallHeight == CeilDiv(height, g.pixelSize)
    ensures g.pixelSize >= 1
    ensures g.smallWidth * g.pixelSize >= width && g.smallWidth <= width
    ensures g.smallHeight * g.pixelSize >= height && g.smallHeight <= height
  {
    var ps := PixelSize(width, level);
    var g := Grid(ps, CeilDiv(width, ps), CeilDiv(height, ps));
    CeilDivAtMost(width, ps);
    CeilDivAtMost(height, ps);
    g
  }

  /** Dividing by at least 1 and rounding up never exceeds the dividend. */
  lemma CeilDivAtMost(a: nat, b: nat)
    requires b >= 1
    ensures CeilDiv(a, b) <= a
  {
    var q := CeilDiv(a, b);
    if q > a {
      MulMonotone(1, b, q - 1);
      assert false;
    }
  }

  /** An image narrower than `20 * level` pixels is drawn cell for pixel: nothing is pixelated. */
  lemma NarrowImageUnchanged(width: nat, height: nat, level: nat)
    requires level > 0 && width < level * BlocksPerLevel
    ensures Downsample(width, height, level) == Grid(1, width, height)
  {
  }

  lemma MulMonotone(a: int, b: int, c: int)
    requires a <= b && c >= 0
    ensures a * c <= b * c
  {
    assert b * c - a * c == (b - a) * c;
  }

  /** Fewer than `k` blocks of size `ps` cover less than `ps * k` pixels. */
  lemma FewBlocksCoverLess(n: int, k: int, ps: int)
    requires 0 <= n < k && ps >= 1
    ensures n * ps < ps * k
  {
    MulMonotone(n, k - 1, ps);
    assert (k - 1) * ps == k * ps - ps;
  }

  /** More than `2k` blocks of size `ps` more than cover `(ps + 1) * k` pixels. */
  lemma ManyBlocksCoverMore(n: int, k: int, ps: int)
    requires k >= 1 && ps >= 1 && n - 1 >= 2 * k
    ensures (n - 1) * ps >= (ps + 1) * k
  {
    MulMonotone(2 * k, n - 1, ps);
    MulMonotone(1, ps, k);
    var kp := k * ps;
    assert (2 * k) * ps == kp + kp;
    assert (ps + 1) * k == kp + k;
  }

  /**
   * An image at least `20 * level` pixels wide gets between `20 * level`
   * and `40 * level` blocks across.
   */
  lemma BlocksAcross(width: nat, height: nat, level: nat)
    requires level > 0 && width >= level * BlocksPerLevel
    ensures var g := Downsample(width, height, level);
      level * BlocksPerLevel <= g.smallWidth <= 2 * level * BlocksPerLevel
  {
    var k := level * BlocksPerLevel;
    var g := Downsample(width, height, level);
    var ps, n := g.pixelSize, g.smallWidth;
    assert ps * k <= width < (ps + 1) * k;
    assert n * ps >= width && (n == 0 || (n - 1) * ps < width);
    if n < k {
      FewBlocksCoverLess(n, k, ps);
      assert false;
    }
    if n > 2 * k {
      ManyBlocksCoverMore(n, k, ps);
      assert false;
    }
  }

  /** The 600 x 400 image at level 3: blocks of 10 pixels, a 60 x 40 grid. */
  lemma GalleryExample()
    ensures Downsample(600, 400, GalleryLevel) == Grid(10, 60, 40)
  {
  }
}
