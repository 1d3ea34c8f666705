/**
 scripts/build_capability_fixtures.py: drawing into pixel grids and writing them as PNG. Compression
 and CRC are parameters; of the font only the 5 by 7 shape of its glyphs matters. A grid is indexed by row and
 column, as the lists of rows are in the original; every drawing method is proved against the set of pixels it
 is to paint, given by a predicate on the coordinates alone.
 */
module Fixtures {

  datatype Color = Color(r: int, g: int, b: int)

  // ---------- drawing ----------

  predicate InRect(x: int, y: int, x0: int, y0: int, x1: int, y1: int) {
    x0 <= x < x1 && y0 <= y < y1
  }

  predicate InDisc(x: int, y: int, cx: int, cy: int, r: int) {
    (x - cx) * (x - cx) + (y - cy) * (y - cy) <= r * r
  }

  function Max(a: int, b: int): int {
    if a < b then b else a
  }

  function Min(a: int, b: int): int {
    if a < b then a else b
  }

  /** _draw_filled_rect: exactly the pixels of the canvas that lie in the rectangle. */
  method FillRect(p: array2<Color>, x0: int, y0: int, x1: int, y1: int, color: Color)
    modifies p
    ensures forall y, x :: 0 <= y < p.Length0 && 0 <= x < p.Length1 ==>
      p[y, x] == if InRect(x, y, x0, y0, x1, y1) then color else old(p[y, x])
  {
    var h, w := p.Length0, p.Length1;
    var y := Max(0, y0);
    while y < Min(h, y1)
      invariant Max(0, y0) <= y
      invariant forall j, i :: 0 <= j < h && 0 <= i < w ==>
        p[j, i] == if j < y && InRect(i, j, x0, y0, x1, y1) then color else old(p[j, i])
    {
      var x := Max(0, x0);
      while x < Min(w, x1)
        invariant Max(0, x0) <= x
        invariant forall j, i :: 0 <= j < h && 0 <= i < w ==>
          p[j, i] == if (j < y || (j == y && i < x)) && InRect(i, j, x0, y0, x1, y1) then color else old(p[j, i])
      {
        p[y, x] := color;
        x := x + 1;
      }
      y := y + 1;
    }
  }

  /** A disc lies in its bounding box. */
  lemma DiscInBox(x: int, y: int, cx: int, cy: int, r: int)
    requires r >= 0 && InDisc(x, y, cx, cy, r)
    ensures cx - r <= x <= cx + r && cy - r <= y <= cy + r
  {
    SquareBound(x - cx, r, (y - cy) * (y - cy));
    SquareBound(y - cy, r, (x - cx) * (x - cx));
  }

  lemma Scaled(a: int, b: int, s: int)
    requires a <= b && s >= 0
    ensures a * s <= b * s
  {
    assert (b - a) * s >= 0;
  }

  lemma SquareGrows(r: int, d: int)
    requires 0 <= r < d
    ensures r * r < d * d
  {
    Scaled(r, d, r);
    Scaled(r + 1, d, d);
  }

  lemma SquareBound(d: int, r: int, rest: int)
    requires r >= 0 && rest >= 0 && d * d + rest <= r * r
    ensures -r <= d <= r
  {
    if d > r {
      SquareGrows(r, d);
    } else if -d > r {
      SquareGrows(r, -d);
    }
  }

  /** _draw_filled_circle: exactly the pixels of the canvas that lie in the disc, none of which the
      bounding box misses; nothing at all for a negative radius. */
  method FillCircle(p: array2<Color>, cx: int, cy: int, r: int, color: Color)
    modifies p
    ensures forall y, x :: 0 <= y < p.Length0 && 0 <= x < p.Length1 ==>
      p[y, x] == if r >= 0 && InDisc(x, y, cx, cy, r) then color else old(p[y, x])
  {
    var h, w := p.Length0, p.Length1;
    ghost var inDisc := (i: int, j: int) => InDisc(i, j, cx, cy, r);
    var y := Max(0, cy - r);
    while y < Min(h, cy + r + 1)
      invariant Max(0, cy - r) <= y
      invariant forall j, i :: 0 <= j < h && 0 <= i < w ==>
        p[j, i] == if j < y && InBox(i, j, cx, cy, r) && inDisc(i, j) then color else old(p[j, i])
    {
      var x := Max(0, cx - r);
      while x < Min(w, cx + r + 1)
        invariant Max(0, cx - r) <= x
        invariant forall j, i :: 0 <= j < h && 0 <= i < w ==>
          p[j, i] == if (j < y || (j == y && i < x)) && InBox(i, j, cx, cy, r) && inDisc(i, j) then color
                     else old(p[j, i])
      {
        assert inDisc(x, y) == InDisc(x, y, cx, cy, r);
        if InDisc(x, y, cx, cy, r) {
          p[y, x] := color;
        }
        x := x + 1;
      }
      y := y + 1;
    }
    forall j, i | r >= 0 && InDisc(i, j, cx, cy, r)
      ensures InBox(i, j, cx, cy, r)
    {
      DiscInBox(i, j, cx, cy, r);
    }
  }

  predicate InBox(x: int, y: int, cx: int, cy: int, r: int) {
    cx - r <= x <= cx + r && cy - r <= y <= cy + r
  }

  // ---------- text ----------

  /** Seven rows of five cells; true is ink. */
  type Glyph = g: seq<seq<bool>> | |g| == 7 && forall i :: 0 <= i < 7 ==> |g[i]| == 5
    witness seq(7, _ => seq(5, _ => false))

  function TextWidth(glyphs: seq<Glyph>, scale: nat, pad: nat): nat {
    (5 * |glyphs| + if |glyphs| == 0 then 0 else |glyphs| - 1) * scale + pad * 2
  }

  function TextHeight(scale: nat, pad: nat): nat {
    7 * scale + pad * 2
  }

  /** The cells of a text are numbered glyph by glyph, row by row. */
  function CellX(k: nat, scale: nat, pad: nat): nat {
    pad + (k / 35 * 6 + k % 5) * scale
  }

  function CellY(k: nat, scale: nat, pad: nat): nat {
    pad + k / 5 % 7 * scale
  }

  predicate InkCell(glyphs: seq<Glyph>, k: nat)
    requires k < 35 * |glyphs|
  {
    glyphs[k / 35][k / 5 % 7][k % 5]
  }

  predicate CellCovers(k: nat, scale: nat, pad: nat, x: int, y: int) {
    InRect(x, y, CellX(k, scale, pad), CellY(k, scale, pad), CellX(k, scale, pad) + scale, CellY(k, scale, pad) + scale)
  }

  /** The pixel is covered by an ink cell among the first n. */
  predicate Inked(glyphs: seq<Glyph>, scale: nat, pad: nat, n: nat, x: int, y: int)
    requires n <= 35 * |glyphs|
  {
    exists k :: 0 <= k < n && InkCell(glyphs, k) && CellCovers(k, scale, pad, x, y)
  }

  lemma InkedMore(glyphs: seq<Glyph>, scale: nat, pad: nat, n: nat, x: int, y: int)
    requires n < 35 * |glyphs|
    ensures Inked(glyphs, scale, pad, n + 1, x, y) <==>
      Inked(glyphs, scale, pad, n, x, y) || (InkCell(glyphs, n) && CellCovers(n, scale, pad, x, y))
  {
  }

  /** Every cell of every glyph lies inside the canvas: nothing of a text is clipped. */
  lemma CellInside(glyphs: seq<Glyph>, scale: nat, pad: nat, k: nat)
    requires k < 35 * |glyphs|
    ensures CellX(k, scale, pad) + scale <= TextWidth(glyphs, scale, pad)
    ensures CellY(k, scale, pad) + scale <= TextHeight(scale, pad)
  {
    var g, c, r, n := k / 35, k % 5, k / 5 % 7, |glyphs|;
    RoomFor(g * 6 + c, 5 * n + n - 1, scale);
    RoomFor(r, 7, scale);
  }

  lemma RoomFor(a: int, b: int, s: int)
    requires a < b && s >= 0
    ensures a * s + s <= b * s
  {
    Scaled(a + 1, b, s);
    assert (a + 1) * s == a * s + s;
  }

  method PaintCell(p: array2<Color>, glyphs: seq<Glyph>, scale: nat, pad: nat, k: nat, fg: Color, ghost bg: Color)
    requires k < 35 * |glyphs|
    requires forall y, x :: 0 <= y < p.Length0 && 0 <= x < p.Length1 ==>
      p[y, x] == if Inked(glyphs, scale, pad, k, x, y) then fg else bg
    modifies p
    ensures forall y, x :: 0 <= y < p.Length0 && 0 <= x < p.Length1 ==>
      p[y, x] == if Inked(glyphs, scale, pad, k + 1, x, y) then fg else bg
  {
    forall y, x | 0 <= y < p.Length0 && 0 <= x < p.Length1
      ensures Inked(glyphs, scale, pad, k + 1, x, y) <==>
        Inked(glyphs, scale, pad, k, x, y) || (InkCell(glyphs, k) && CellCovers(k, scale, pad, x, y))
    {
      InkedMore(glyphs, scale, pad, k, x, y);
    }
    if InkCell(glyphs, k) {
      var x0, y0 := CellX(k, scale, pad), CellY(k, scale, pad);
      FillRect(p, x0, y0, x0 + scale, y0 + scale, fg);
    }
  }

  /** render_text_png up to the encoding: the ink of the text on the background. */
  method RenderText(glyphs: seq<Glyph>, scale: nat, fg: Color, bg: Color, pad: nat) returns (p: array2<Color>)
    ensures fresh(p) && p.Length0 == TextHeight(scale, pad) && p.Length1 == TextWidth(glyphs, scale, pad)
    ensures forall y, x :: 0 <= y < p.Length0 && 0 <= x < p.Length1 ==>
      p[y, x] == if Inked(glyphs, scale, pad, 35 * |glyphs|, x, y) then fg else bg
  {
    p := new Color[TextHeight(scale, pad), TextWidth(glyphs, scale, pad)]((_, _) => bg);
    for g := 0 to |glyphs|
      invariant forall y, x :: 0 <= y < p.Length0 && 0 <= x < p.Length1 ==>
        p[y, x] == if Inked(glyphs, scale, pad, 35 * g, x, y) then fg else bg
    {
      for row := 0 to 7
        invariant forall y, x :: 0 <= y < p.Length0 && 0 <= x < p.Length1 ==>
          p[y, x] == if Inked(glyphs, scale, pad, 35 * g + 5 * row, x, y) then fg else bg
      {
        for col := 0 to 5
          invariant forall y, x :: 0 <= y < p.Length0 && 0 <= x < p.Length1 ==>
            p[y, x] == if Inked(glyphs, scale, pad, 35 * g + 5 * row + col, x, y) then fg else bg
        {
          PaintCell(p, glyphs, scale, pad, 35 * g + 5 * row + col, fg, bg);
        }
      }
    }
  }

  /** Read off a pixel by division: the glyph, row and column it falls in decide, and the sixth column of
      a glyph's cell and the padding stay background. */
  lemma InkByDivision(glyphs: seq<Glyph>, scale: nat, pad: nat, x: int, y: int)
    requires scale > 0
    ensures Inked(glyphs, scale, pad, 35 * |glyphs|, x, y) <==>
      x >= pad && y >= pad &&
      (var cx, row := (x - pad) / scale, (y - pad) / scale;
       row < 7 && cx / 6 < |glyphs| && cx % 6 < 5 && glyphs[cx / 6][row][cx % 6])
  {
    if Inked(glyphs, scale, pad, 35 * |glyphs|, x, y) {
      var k :| 0 <= k < 35 * |glyphs| && InkCell(glyphs, k) && CellCovers(k, scale, pad, x, y);
      CoveredIs(k, scale, pad, x, y);
      CellDigits(k);
    }
    if x >= pad && y >= pad {
      var cx, row := (x - pad) / scale, (y - pad) / scale;
      if row < 7 && cx / 6 < |glyphs| && cx % 6 < 5 {
        var k := cx / 6 * 35 + row * 5 + cx % 6;
        DigitsOf(cx / 6, row, cx % 6);
        CoveringIs(k, cx, row, scale, pad, x, y);
      }
    }
  }

  lemma CellDigits(k: nat)
    ensures var cx := k / 35 * 6 + k % 5; cx / 6 == k / 35 && cx % 6 == k % 5
  {
  }

  lemma DigitsOf(g: nat, row: nat, col: nat)
    requires row < 7 && col < 5
    ensures var k := g * 35 + row * 5 + col; k / 35 == g && k / 5 % 7 == row && k % 5 == col
  {
  }

  lemma CoveredIs(k: nat, scale: nat, pad: nat, x: int, y: int)
    requires scale > 0 && CellCovers(k, scale, pad, x, y)
    ensures x >= pad && (x - pad) / scale == k / 35 * 6 + k % 5
    ensures y >= pad && (y - pad) / scale == k / 5 % 7
  {
    Scaled(0, k / 35 * 6 + k % 5, scale);
    Scaled(0, k / 5 % 7, scale);
    DivisionOf(x - pad, scale, k / 35 * 6 + k % 5);
    DivisionOf(y - pad, scale, k / 5 % 7);
  }

  lemma CoveringIs(k: nat, cx: nat, row: nat, scale: nat, pad: nat, x: int, y: int)
    requires scale > 0 && x >= pad && y >= pad && cx == (x - pad) / scale && row == (y - pad) / scale
    requires k / 35 == cx / 6 && k / 5 % 7 == row && k % 5 == cx % 6
    ensures CellCovers(k, scale, pad, x, y)
  {
    assert k / 35 * 6 + k % 5 == cx;
    MultipleOf(x - pad, scale);
    MultipleOf(y - pad, scale);
  }

  lemma DivisionOf(d: int, scale: int, q: int)
    requires scale > 0 && q * scale <= d < q * scale + scale
    ensures d / scale == q
  {
    var e := d / scale;
    if e < q {
      Scaled(e + 1, q, scale);
    } else if e > q {
      Scaled(q + 1, e, scale);
    }
  }

  lemma MultipleOf(d: nat, scale: int)
    requires scale > 0
    ensures d / scale * scale <= d < d / scale * scale + scale
  {
  }
}
