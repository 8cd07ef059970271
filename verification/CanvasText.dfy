/** Text on the canvas. */
module CanvasText {
  import opened Canvas

  type Font = map<char, seq<string>>

  /** One call of _draw_text on a canvas of the given size; `value` is in upper case. */
  datatype Lettering = Lettering(font: Font, width: nat, height: nat, x: int, y: int, value: string, scale: int, color: Rgb)

  predicate Drawable(l: Lettering) {
    ' ' in l.font
  }

  /** The glyph of a character; characters the font does not have are drawn as a blank. */
  function Glyph(l: Lettering, k: nat): seq<string>
    requires Drawable(l) && k < |l.value|
  {
    if l.value[k] in l.font then l.font[l.value[k]] else l.font[' ']
  }

  /** Cell (gx, gy) of character number `k` is set. */
  predicate Bit(l: Lettering, k: int, gx: int, gy: int)
    requires Drawable(l)
  {
    && 0 <= k < |l.value|
    && 0 <= gy < |Glyph(l, k)| && 0 <= gx < |Glyph(l, k)[gy]| && Glyph(l, k)[gy][gx] == '1'
  }

  function CellX(l: Lettering, k: int, gx: int): int {
    l.x + k * (6 * l.scale) + gx * l.scale
  }

  function CellY(l: Lettering, gy: int): int {
    l.y + gy * l.scale
  }

  /** The square a cell covers. */
  predicate InCell(l: Lettering, k: int, gx: int, gy: int, px: int, py: int) {
    Inside(CellX(l, k, gx), CellY(l, gy), l.scale, l.scale, px, py)
  }

  /** The cell is set and drawing it on a whole canvas deletes bytes. */
  predicate Deleting(l: Lettering, k: int, gx: int, gy: int)
    requires Drawable(l)
  {
    Bit(l, k, gx, gy) && Deletes(l.width, l.height, CellX(l, k, gx), CellY(l, gy), l.scale, l.scale)
  }

  /** The cell comes before cell (gx, gy) of character `k` in the order of the loops. */
  predicate Earlier(k': int, gy': int, gx': int, k: int, gy: int, gx: int) {
    k' < k || (k' == k && (gy' < gy || (gy' == gy && gx' < gx)))
  }

  /** Some set cell before the given one covers the pixel. */
  ghost predicate LitBefore(l: Lettering, k: int, gy: int, gx: int, px: int, py: int)
    requires Drawable(l)
  {
    exists k', gx', gy' :: Bit(l, k', gx', gy') && Earlier(k', gy', gx', k, gy, gx) && InCell(l, k', gx', gy', px, py)
  }

  /** The union of the set cells of a text. */
  ghost predicate Lit(l: Lettering, px: int, py: int)
    requires Drawable(l)
  {
    exists k, gx, gy :: Bit(l, k, gx, gy) && InCell(l, k, gx, gy, px, py)
  }

  // ---- the three loops

  /** The buffer before the bit (gx, gy) of character `k`. */
  function RowText(l: Lettering, data: seq<Byte>, k: nat, gy: nat, gx: nat): seq<Byte>
    requires Drawable(l) && k < |l.value| && gy < |Glyph(l, k)| && gx <= |Glyph(l, k)[gy]|
    decreases k, gy + 1, gx + 1
  {
    if gx == 0 then GlyphText(l, data, k, gy)
    else
      var before := RowText(l, data, k, gy, gx - 1);
      if Bit(l, k, gx - 1, gy) then CellText(l, before, k, gx - 1, gy) else before
  }

  function GlyphText(l: Lettering, data: seq<Byte>, k: nat, gy: nat): seq<Byte>
    requires Drawable(l) && k < |l.value| && gy <= |Glyph(l, k)|
    decreases k, gy + 1, 0
  {
    if gy == 0 then TextBefore(l, data, k) else RowText(l, data, k, gy - 1, |Glyph(l, k)[gy - 1]|)
  }

  function TextBefore(l: Lettering, data: seq<Byte>, k: nat): seq<Byte>
    requires Drawable(l) && k <= |l.value|
    decreases k, 0, 0
  {
    if k == 0 then data else GlyphText(l, data, k - 1, |Glyph(l, k - 1)|)
  }

  function CellText(l: Lettering, data: seq<Byte>, k: int, gx: int, gy: int): seq<Byte> {
    RectOf(data, l.width, l.height, CellX(l, k, gx), CellY(l, gy), l.scale, l.scale, l.color)
  }

  /** The innermost loop of _draw_text: one row of a glyph. */
  method DrawRow(canvas: ByteArray, l: Lettering, ghost before: seq<Byte>, k: nat, gy: nat, cursor: int)
    requires Drawable(l) && k < |l.value| && gy < |Glyph(l, k)| && cursor == l.x + k * (6 * l.scale)
    requires canvas.data == RowText(l, before, k, gy, 0)
    modifies canvas
    ensures canvas.data == RowText(l, before, k, gy, |Glyph(l, k)[gy]|)
  {
    var line := Glyph(l, k)[gy];
    for gx := 0 to |line|
      invariant canvas.data == RowText(l, before, k, gy, gx)
    {
      if line[gx] == '1' {
        DrawRect(canvas, l.width, l.height, cursor + gx * l.scale, l.y + gy * l.scale, l.scale, l.scale, l.color);
      }
    }
  }

  /** _draw_text, on a buffer of any length. */
  method DrawText(canvas: ByteArray, l: Lettering)
    requires Drawable(l)
    modifies canvas
    ensures canvas.data == TextBefore(l, old(canvas.data), |l.value|)
    ensures Sized(old(canvas.data), l.width, l.height) && (forall k, gx, gy :: !Deleting(l, k, gx, gy)) ==>
              Recoloured(old(canvas.data), canvas.data, l.width, l.height, (px, py) => Lit(l, px, py), l.color)
  {
    ghost var before := canvas.data;
    var cursor := l.x;
    for k := 0 to |l.value|
      invariant cursor == l.x + k * (6 * l.scale)
      invariant canvas.data == TextBefore(l, before, k)
    {
      var glyph := Glyph(l, k);
      for gy := 0 to |glyph|
        invariant canvas.data == GlyphText(l, before, k, gy)
      {
        DrawRow(canvas, l, before, k, gy, cursor);
      }
      cursor := cursor + 6 * l.scale;
    }
    TextDrawn(l, before);
  }

  // ---- what they paint

  /** The buffer is the canvas with the set cells before the position painted. */
  ghost predicate Drawn(l: Lettering, k: int, gy: int, gx: int, before: seq<Byte>, data: seq<Byte>)
    requires Drawable(l)
  {
    Recoloured(before, data, l.width, l.height, (px, py) => LitBefore(l, k, gy, gx, px, py), l.color)
  }

  ghost predicate NoneBefore(l: Lettering, k: int, gy: int, gx: int)
    requires Drawable(l)
  {
    forall k', gx', gy' | Deleting(l, k', gx', gy') :: !Earlier(k', gy', gx', k, gy, gx)
  }

  lemma SameArea(before: seq<Byte>, data: seq<Byte>, width: nat, height: nat, a: (int, int) -> bool, b: (int, int) -> bool, color: Rgb)
    requires Recoloured(before, data, width, height, a, color)
    requires forall px, py :: a(px, py) <==> b(px, py)
    ensures Recoloured(before, data, width, height, b, color)
  {
  }

  /** Going to the next position of the loops, past a cell that is not set or does not exist, changes nothing. */
  lemma Advance(l: Lettering, k: int, gy: int, gx: int, k2: int, gy2: int, gx2: int, before: seq<Byte>, data: seq<Byte>)
    requires Drawable(l) && Drawn(l, k, gy, gx, before, data)
    requires forall k', gx', gy' | Bit(l, k', gx', gy') ::
               Earlier(k', gy', gx', k, gy, gx) <==> Earlier(k', gy', gx', k2, gy2, gx2)
    ensures Drawn(l, k2, gy2, gx2, before, data)
  {
    SameArea(before, data, l.width, l.height, (px, py) => LitBefore(l, k, gy, gx, px, py),
             (px, py) => LitBefore(l, k2, gy2, gx2, px, py), l.color);
  }

  /** Drawing a set cell. */
  lemma DrawCell(l: Lettering, k: int, gy: int, gx: int, before: seq<Byte>, data: seq<Byte>)
    requires Drawable(l) && Drawn(l, k, gy, gx, before, data)
    requires Bit(l, k, gx, gy) && !Deleting(l, k, gx, gy)
    ensures Drawn(l, k, gy, gx + 1, before, CellText(l, data, k, gx, gy))
  {
    RectPaintsExactly(data, l.width, l.height, CellX(l, k, gx), CellY(l, gy), l.scale, l.scale, l.color);
    forall px, py
      ensures LitBefore(l, k, gy, gx + 1, px, py) <==> LitBefore(l, k, gy, gx, px, py) || InCell(l, k, gx, gy, px, py)
    {
      OneMoreCell(l, k, gy, gx, px, py);
    }
    SameArea(data, CellText(l, data, k, gx, gy), l.width, l.height,
             (px, py) => Inside(CellX(l, k, gx), CellY(l, gy), l.scale, l.scale, px, py),
             (px, py) => InCell(l, k, gx, gy, px, py), l.color);
    Compose(before, data, CellText(l, data, k, gx, gy), l.width, l.height,
            (px, py) => LitBefore(l, k, gy, gx, px, py),
            (px, py) => InCell(l, k, gx, gy, px, py),
            (px, py) => LitBefore(l, k, gy, gx + 1, px, py), l.color);
  }

  lemma OneMoreCell(l: Lettering, k: int, gy: int, gx: int, px: int, py: int)
    requires Drawable(l) && Bit(l, k, gx, gy)
    ensures LitBefore(l, k, gy, gx + 1, px, py) <==> LitBefore(l, k, gy, gx, px, py) || InCell(l, k, gx, gy, px, py)
  {
    if LitBefore(l, k, gy, gx, px, py) {
      var k', gx', gy' :| Bit(l, k', gx', gy') && Earlier(k', gy', gx', k, gy, gx) && InCell(l, k', gx', gy', px, py);
      assert Earlier(k', gy', gx', k, gy, gx + 1);
    }
    if InCell(l, k, gx, gy, px, py) {
      assert Earlier(k, gy, gx, k, gy, gx + 1);
    }
  }

  lemma {:induction false} RowPaints(l: Lettering, data: seq<Byte>, k: nat, gy: nat, gx: nat)
    requires Drawable(l) && k < |l.value| && gy < |Glyph(l, k)| && gx <= |Glyph(l, k)[gy]|
    requires Sized(data, l.width, l.height) && NoneBefore(l, k, gy, gx)
    ensures Drawn(l, k, gy, gx, data, RowText(l, data, k, gy, gx))
    decreases k, gy + 1, gx + 1
  {
    if gx == 0 {
      GlyphPaints(l, data, k, gy);
    } else {
      RowPaints(l, data, k, gy, gx - 1);
      if Bit(l, k, gx - 1, gy) {
        assert Earlier(k, gy, gx - 1, k, gy, gx);
        DrawCell(l, k, gy, gx - 1, data, RowText(l, data, k, gy, gx - 1));
      } else {
        Advance(l, k, gy, gx - 1, k, gy, gx, data, RowText(l, data, k, gy, gx - 1));
      }
    }
  }

  lemma {:induction false} GlyphPaints(l: Lettering, data: seq<Byte>, k: nat, gy: nat)
    requires Drawable(l) && k < |l.value| && gy <= |Glyph(l, k)|
    requires Sized(data, l.width, l.height) && NoneBefore(l, k, gy, 0)
    ensures Drawn(l, k, gy, 0, data, GlyphText(l, data, k, gy))
    decreases k, gy + 1, 0
  {
    if gy == 0 {
      TextPaints(l, data, k);
    } else {
      var n := |Glyph(l, k)[gy - 1]|;
      RowPaints(l, data, k, gy - 1, n);
      Advance(l, k, gy - 1, n, k, gy, 0, data, RowText(l, data, k, gy - 1, n));
    }
  }

  lemma {:induction false} TextPaints(l: Lettering, data: seq<Byte>, k: nat)
    requires Drawable(l) && k <= |l.value|
    requires Sized(data, l.width, l.height) && NoneBefore(l, k, 0, 0)
    ensures Drawn(l, k, 0, 0, data, TextBefore(l, data, k))
    decreases k, 0, 0
  {
    if k > 0 {
      var n := |Glyph(l, k - 1)|;
      GlyphPaints(l, data, k - 1, n);
      Advance(l, k - 1, n, 0, k, 0, 0, data, GlyphText(l, data, k - 1, n));
    }
  }

  /** When no set cell deletes, the text paints exactly the part of the union of its set cells that lies on the canvas. */
  lemma TextPaintsExactly(l: Lettering, data: seq<Byte>)
    requires Drawable(l) && Sized(data, l.width, l.height) && forall k, gx, gy :: !Deleting(l, k, gx, gy)
    ensures Recoloured(data, TextBefore(l, data, |l.value|), l.width, l.height, (px, py) => Lit(l, px, py), l.color)
  {
    TextPaints(l, data, |l.value|);
    forall px, py
      ensures LitBefore(l, |l.value|, 0, 0, px, py) <==> Lit(l, px, py)
    {
      if Lit(l, px, py) {
        var k, gx, gy :| Bit(l, k, gx, gy) && InCell(l, k, gx, gy, px, py);
        assert Earlier(k, gy, gx, |l.value|, 0, 0);
      }
    }
    SameArea(data, TextBefore(l, data, |l.value|), l.width, l.height, (px, py) => LitBefore(l, |l.value|, 0, 0, px, py),
             (px, py) => Lit(l, px, py), l.color);
  }

  /** Where a set bit lands: six cells to a character, `scale` pixels to a cell, unknown characters as blanks. */
  predicate Covers(l: Lettering, k: int, gx: int, gy: int, px: int, py: int)
    requires Drawable(l)
  {
    && 0 <= k < |l.value|
    && var glyph := l.font[if l.value[k] in l.font then l.value[k] else ' '];
    && 0 <= gy < |glyph| && 0 <= gx < |glyph[gy]| && glyph[gy][gx] == '1'
    && 0 <= px - (l.x + (6 * k + gx) * l.scale) < l.scale
    && 0 <= py - (l.y + gy * l.scale) < l.scale
  }

  lemma CellPlace(l: Lettering, k: int, gx: int)
    ensures CellX(l, k, gx) == l.x + (6 * k + gx) * l.scale
  {
    assert k * (6 * l.scale) == (6 * k) * l.scale;
  }

  lemma LitExactly(l: Lettering, px: int, py: int)
    requires Drawable(l)
    ensures Lit(l, px, py) <==> exists k, gx, gy :: Covers(l, k, gx, gy, px, py)
  {
    if k, gx, gy :| Bit(l, k, gx, gy) && InCell(l, k, gx, gy, px, py) {
      CellPlace(l, k, gx);
      assert Covers(l, k, gx, gy, px, py);
    }
    if k, gx, gy :| Covers(l, k, gx, gy, px, py) {
      CellPlace(l, k, gx);
      assert Bit(l, k, gx, gy) && InCell(l, k, gx, gy, px, py);
    }
  }

  lemma TextDrawn(l: Lettering, data: seq<Byte>)
    requires Drawable(l)
    ensures Sized(data, l.width, l.height) && (forall k, gx, gy :: !Deleting(l, k, gx, gy)) ==>
              Recoloured(data, TextBefore(l, data, |l.value|), l.width, l.height, (px, py) => Lit(l, px, py), l.color)
  {
    if Sized(data, l.width, l.height) && forall k, gx, gy :: !Deleting(l, k, gx, gy) {
      TextPaintsExactly(l, data);
    }
  }

  /** Text that starts no further left than one cell is safe, as every call in the script is. */
  lemma SafeFromTheLeftEdge(l: Lettering, k: int, gx: int, gy: int)
    requires Drawable(l) && l.x + l.scale >= 0
    ensures !Deleting(l, k, gx, gy)
  {
    if Bit(l, k, gx, gy) && l.scale >= 0 {
      assert k * (6 * l.scale) >= 0 && gx * l.scale >= 0;
      SafeWhenItReachesTheCanvas(l.width, l.height, CellX(l, k, gx), CellY(l, gy), l.scale, l.scale);
    }
  }

  /** Otherwise there is a first set cell that deletes: up to it the text is painted exactly, and drawing it leaves a
      buffer that is shorter than the canvas.  */
  lemma FirstDeletion(l: Lettering, data: seq<Byte>, k0: int, gx0: int, gy0: int) returns (k: nat, gy: nat, gx: nat)
    requires Drawable(l) && Sized(data, l.width, l.height) && Deleting(l, k0, gx0, gy0)
    ensures Deleting(l, k, gx, gy) && NoneBefore(l, k, gy, gx)
    ensures Drawn(l, k, gy, gx, data, RowText(l, data, k, gy, gx))
    ensures |RowText(l, data, k, gy, gx + 1)| < |data|
  {
    k, gy, gx := FindFirst(l, k0, gx0, gy0);
    RowPaints(l, data, k, gy, gx);
    RectPaintsExactly(RowText(l, data, k, gy, gx), l.width, l.height, CellX(l, k, gx), CellY(l, gy), l.scale, l.scale, l.color);
  }

  lemma FindFirst(l: Lettering, k0: int, gx0: int, gy0: int) returns (k: nat, gy: nat, gx: nat)
    requires Drawable(l) && Deleting(l, k0, gx0, gy0)
    ensures Deleting(l, k, gx, gy) && NoneBefore(l, k, gy, gx)
  {
    for c := 0 to |l.value|
      invariant NoneBefore(l, c, 0, 0)
    {
      for y := 0 to |Glyph(l, c)|
        invariant NoneBefore(l, c, y, 0)
      {
        for x := 0 to |Glyph(l, c)[y]|
          invariant NoneBefore(l, c, y, x)
        {
          if Deleting(l, c, x, y) {
            return c, y, x;
          }
        }
      }
    }
    assert Earlier(k0, gy0, gx0, |l.value|, 0, 0);
    assert false;
  }
}
