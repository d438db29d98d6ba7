/**
 * An integer box with half-open extent [x, x + width) by [y, y + height),
 * computed in Java's 32-bit arithmetic.
 */
module Geometry {
  import opened JavaInt

  class Rectangle {
    var x: Int32
    var y: Int32
    var width: Int32
    var height: Int32

    constructor ()
      ensures x == 0 && y == 0 && width == 0 && height == 0
    {
      x, y, width, height := 0, 0, 0, 0;
    }

    /** The edges x + width and y + height do not wrap around. */
    predicate EdgesFit()
      reads this
    {
      InRange(x as int + width as int) && InRange(y as int + height as int)
    }

    method SetBounds(x: Int32, y: Int32, width: Int32, height: Int32)
      modifies this
      ensures this.x == x && this.y == y && this.width == width && this.height == height
    {
      this.x := x;
      this.y := y;
      this.width := width;
      this.height := height;
    }

    /**
     * Moves the top-left corner out by (w, h) and widens the box by twice as
     * much, so that every edge moves out by w or h.
     */
    method Grow(w: Int32, h: Int32)
      modifies this
      ensures x == Sub(old(x), w) && y == Sub(old(y), h)
      ensures width == Add(old(width), Mul(w, 2)) && height == Add(old(height), Mul(h, 2))
      ensures InRange(old(x) as int - w as int) && InRange(2 * w as int) && InRange(old(width) as int + 2 * w as int) ==>
        x as int == old(x) as int - w as int &&
        width as int == old(width) as int + 2 * w as int &&
        x as int + width as int == old(x) as int + old(width) as int + w as int
      ensures InRange(old(y) as int - h as int) && InRange(2 * h as int) && InRange(old(height) as int + 2 * h as int) ==>
        y as int == old(y) as int - h as int &&
        height as int == old(height) as int + 2 * h as int &&
        y as int + height as int == old(y) as int + old(height) as int + h as int
      ensures w == 0 && h == 0 ==> x == old(x) && y == old(y) && width == old(width) && height == old(height)
    {
      x := Sub(x, w);
      y := Sub(y, h);
      width := Add(width, Mul(w, 2));
      height := Add(height, Mul(h, 2));
    }

    /**
     * Whether point (px, py) lies in the half-open box. When the edges do not
     * wrap around, that is x <= px < x + width and y <= py < y + height, and an
     * empty or negative extent contains nothing.
     */
    function Contains(px: Int32, py: Int32): (r: bool)
      reads this
      ensures r ==> x <= px && y <= py
      ensures EdgesFit() ==>
        (r <==> x as int <= px as int < x as int + width as int && y as int <= py as int < y as int + height as int)
      ensures EdgesFit() && (width <= 0 || height <= 0) ==> !r
    {
      px >= x && px < Add(x, width) && py >= y && py < Add(y, height)
    }

    /**
     * Whether this box's top-left corner lies in `bounds`: `bounds` contains
     * (x, y). The relation is not symmetric.
     */
    function Intersects(bounds: Rectangle): (r: bool)
      reads this, bounds
      ensures r <==> bounds.Contains(x, y)
    {
      x >= bounds.x && x < Add(bounds.x, bounds.width) && y >= bounds.y && y < Add(bounds.y, bounds.height)
    }

    /**
     * Half of x + width, truncated toward zero as Java's division does (the
     * half of the right edge, not the middle of the box).
     */
    function CenterX(): (r: Int32)
      reads this
      ensures Add(x, width) >= 0 ==> 2 * r as int <= Add(x, width) as int < 2 * r as int + 2
      ensures Add(x, width) < 0 ==> 2 * r as int - 2 < Add(x, width) as int <= 2 * r as int
    {
      Quot(Add(x, width) as int, 2) as Int32
    }

    /** Half of y + height, truncated toward zero. */
    function CenterY(): (r: Int32)
      reads this
      ensures Add(y, height) >= 0 ==> 2 * r as int <= Add(y, height) as int < 2 * r as int + 2
      ensures Add(y, height) < 0 ==> 2 * r as int - 2 < Add(y, height) as int <= 2 * r as int
    {
      Quot(Add(y, height) as int, 2) as Int32
    }
  }

  /** A box whose corner lies in another need not contain that other's corner. */
  lemma IntersectsNotSymmetric(a: Rectangle, b: Rectangle)
    requires a.x == 5 && a.y == 5 && a.width == 10 && a.height == 10
    requires b.x == 0 && b.y == 0 && b.width == 10 && b.height == 10
    ensures a.Intersects(b) && !b.Intersects(a)
  {
  }

  /**
   * With wrap-around, a box of negative width can still contain points: at
   * x = MIN_INT, x + width wraps to MAX_INT for width -1.
   */
  lemma ContainsUnderWrapAround(r: Rectangle)
    requires r.x as int == MIN_INT && r.width == -1 && r.y == 0 && r.height == 1
    ensures r.Contains(r.x, 0)
  {
  }

  /** The centre is half the right edge: for x = 10, width = 10 it is 10, not 15. */
  lemma CenterIsHalfTheRightEdge(r: Rectangle)
    requires r.x == 10 && r.width == 10
    ensures r.CenterX() == 10
  {
  }

  /** Truncation toward zero: for x + width = -3 the centre is -1, where floor division gives -2. */
  lemma CenterTruncatesTowardZero(r: Rectangle)
    requires r.x == -4 && r.width == 1
    ensures r.CenterX() == -1
  {
  }
}
