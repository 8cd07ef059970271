/** The byte canvas of scripts/publication/render_assets.py. */
module Canvas {

  type Byte = b: int | 0 <= b < 256

  datatype Rgb = Rgb(r: Byte, g: Byte, b: Byte)

  function Max(a: int, b: int): int {
    if a < b then b else a
  }

  function Min(a: int, b: int): int {
    if a < b then a else b
  }

  // ---- Python slices

  /** A slice bound as Python reads it: negative counts from the end, and both ways it is clipped. */
  function Clip(index: int, length: nat): (r: nat)
    ensures r <= length
  {
    if index < 0 then Max(0, index + length) else Min(index, length)
  }

  /** data[start:end] = bytes. */
  function Spliced(data: seq<Byte>, start: int, end: int, bytes: seq<Byte>): seq<Byte> {
    var from := Clip(start, |data|);
    var until := Max(from, Clip(end, |data|));
    data[..from] + bytes + data[until..]
  }

  /** bytes(color) * count: nothing when the count is negative. */
  function Repeated(color: Rgb, count: int): (r: seq<Byte>)
    ensures |r| == 3 * Max(0, count)
    ensures forall k | 0 <= k < count :: r[3 * k] == color.r && r[3 * k + 1] == color.g && r[3 * k + 2] == color.b
    decreases Max(0, count)
  {
    if count <= 0 then [] else Repeated(color, count - 1) + [color.r, color.g, color.b]
  }

  class ByteArray {
    var data: seq<Byte>

    constructor (data: seq<Byte>)
      ensures this.data == data
    {
      this.data := data;
    }

    method AssignSlice(start: int, end: int, bytes: seq<Byte>)
      modifies this
      ensures data == Spliced(old(data), start, end, bytes)
    {
      var from := Clip(start, |data|);
      var until := Max(from, Clip(end, |data|));
      data := data[..from] + bytes + data[until..];
    }
  }

  // ---- pixels

  predicate Sized(data: seq<Byte>, width: nat, height: nat) {
    |data| == width * height * 3
  }

  predicate OnCanvas(width: nat, height: nat, px: int, py: int) {
    0 <= px < width && 0 <= py < height
  }

  function Offset(width: nat, px: int, py: int): int {
    (py * width + px) * 3
  }

  lemma OffsetInside(width: nat, height: nat, px: int, py: int)
    requires OnCanvas(width, height, px, py)
    ensures 0 <= Offset(width, px, py) && Offset(width, px, py) + 3 <= width * height * 3
  {
    RowsBelow(width, py, height);
    assert (py + 1) * width == py * width + width;
  }

  lemma RowsBelow(width: nat, py: int, limit: int)
    requires 0 <= py < limit
    ensures 0 <= py * width && (py + 1) * width <= limit * width
  {
    var gap := limit - (py + 1);
    assert limit * width == (py + 1) * width + gap * width;
  }

  function Pixel(data: seq<Byte>, width: nat, height: nat, px: int, py: int): Rgb
    requires Sized(data, width, height) && OnCanvas(width, height, px, py)
  {
    OffsetInside(width, height, px, py);
    var o := Offset(width, px, py);
    Rgb(data[o], data[o + 1], data[o + 2])
  }

  predicate Inside(x: int, y: int, w: int, h: int, px: int, py: int) {
    x <= px < x + w && y <= py < y + h
  }

  /** `data'` is `data` with exactly the pixels of `area` recoloured. */
  ghost predicate Recoloured(data: seq<Byte>, data': seq<Byte>, width: nat, height: nat, area: (int, int) -> bool, color: Rgb) {
    && Sized(data, width, height) && Sized(data', width, height)
    && forall px, py | OnCanvas(width, height, px, py) ::
         Pixel(data', width, height, px, py) == if area(px, py) then color else Pixel(data, width, height, px, py)
  }

  // ---- _draw_rect

  /** The rectangle ends left of the canvas, so far that the first slice bound turns negative while the slice still
      meets the buffer: Python then deletes bytes.  */
  predicate Deletes(width: nat, height: nat, x: int, y: int, w: int, h: int) {
    var x0, x1 := Max(0, x), Min(width, x + w);
    var y0, y1 := Max(0, y), Min(height, y + h);
    y0 < y1 && y0 * width + x1 < 0 && x0 < width * height + x1
  }

  /** One row of the loop, for a row that stays on the canvas. */
  lemma RowPainted(data: seq<Byte>, width: nat, height: nat, yy: int, x0: int, x1: int, color: Rgb)
    requires Sized(data, width, height) && 0 <= yy < height && 0 <= x0 <= x1 <= width
    ensures Recoloured(data, Spliced(data, Offset(width, x0, yy), Offset(width, x1, yy), Repeated(color, x1 - x0)), width, height,
                       (px, py) => py == yy && x0 <= px < x1, color)
  {
    var start, end := Offset(width, x0, yy), Offset(width, x1, yy);
    RowInside(width, height, yy, x0, x1);
    var bytes := Repeated(color, x1 - x0);
    var data' := data[..start] + bytes + data[end..];
    forall px, py | OnCanvas(width, height, px, py)
      ensures Pixel(data', width, height, px, py) ==
              if py == yy && x0 <= px < x1 then color else Pixel(data, width, height, px, py)
    {
      OffsetInside(width, height, px, py);
      if py == yy && x0 <= px < x1 {
        assert Offset(width, px, py) == start + 3 * (px - x0);
      } else {
        OtherPixel(width, yy, x0, x1, px, py);
      }
    }
  }

  lemma RowInside(width: nat, height: nat, yy: int, x0: int, x1: int)
    requires 0 <= yy < height && 0 <= x0 <= x1 <= width
    ensures 0 <= Offset(width, x0, yy) <= Offset(width, x1, yy) <= width * height * 3
    ensures Offset(width, x1, yy) - Offset(width, x0, yy) == 3 * (x1 - x0)
  {
    RowsBelow(width, yy, height);
    assert (yy + 1) * width == yy * width + width;
  }

  /** A pixel outside the painted part of the row lies wholly before or after the slice. */
  lemma OtherPixel(width: nat, yy: int, x0: int, x1: int, px: int, py: int)
    requires 0 <= x0 <= x1 <= width && 0 <= px < width && yy >= 0 && py >= 0
    requires !(py == yy && x0 <= px < x1)
    ensures Offset(width, px, py) + 3 <= Offset(width, x0, yy) || Offset(width, px, py) >= Offset(width, x1, yy)
  {
    if py < yy {
      RowsBelow(width, py, yy);
      assert (py + 1) * width == py * width + width;
    } else if py > yy {
      RowsBelow(width, yy, py);
      assert (yy + 1) * width == yy * width + width;
    }
  }

  lemma NothingPainted(data: seq<Byte>, start: int, end: int)
    requires Clip(end, |data|) <= Clip(start, |data|)
    ensures Spliced(data, start, end, []) == data
  {
  }

  lemma Compose(a: seq<Byte>, b: seq<Byte>, c: seq<Byte>, width: nat, height: nat,
                first: (int, int) -> bool, second: (int, int) -> bool, both: (int, int) -> bool, color: Rgb)
    requires Recoloured(a, b, width, height, first, color) && Recoloured(b, c, width, height, second, color)
    requires forall px, py | OnCanvas(width, height, px, py) :: both(px, py) <==> first(px, py) || second(px, py)
    ensures Recoloured(a, c, width, height, both, color)
  {
  }

  /** A later row has a larger product. */
  lemma RowProduct(width: nat, y0: int, yy: int)
    requires y0 <= yy
    ensures y0 * width <= yy * width
  {
    assert yy * width == y0 * width + (yy - y0) * width;
  }

  /** One row of the loop. Where the slice is harmless it paints the row's part of the rectangle; elsewhere it shortens
      the buffer.  */
  lemma RowStep(data: seq<Byte>, width: nat, height: nat, x: int, y: int, w: int, h: int, yy: int, color: Rgb)
    requires Sized(data, width, height)
    requires Max(0, y) <= yy < Min(height, y + h)
    ensures var x0, x1 := Max(0, x), Min(width, x + w);
            var data' := Spliced(data, Offset(width, x0, yy), Offset(width, x1, yy), Repeated(color, x1 - x0));
            if yy * width + x1 < 0 && x0 < width * height + x1 then |data'| < |data|
            else Recoloured(data, data', width, height, (px, py) => py == yy && x0 <= px < x1, color)
  {
    var x0, x1 := Max(0, x), Min(width, x + w);
    var start, end := Offset(width, x0, yy), Offset(width, x1, yy);
    RowProduct(width, 0, yy);
    if x0 <= x1 {
      RowPainted(data, width, height, yy, x0, x1, color);
    } else if yy * width + x1 < 0 && x0 < width * height + x1 {
      assert end < 0 && start < |data| + end by {
        RowProduct(width, yy, height);
      }
      assert Clip(start, |data|) <= start;
      assert Repeated(color, x1 - x0) == [];
      Shortened(data, start, end);
    } else {
      assert Repeated(color, x1 - x0) == [];
      if end < 0 {
        assert |data| + end <= start;
      }
      NothingPainted(data, start, end);
    }
  }

  lemma Shortened(data: seq<Byte>, start: int, end: int)
    requires 0 <= start && end < 0 && start < |data| + end
    ensures |Spliced(data, start, end, [])| < |data|
  {
  }

  lemma SplicedShort(data: seq<Byte>, start: int, end: int, bytes: seq<Byte>)
    requires |bytes| == 0
    ensures |Spliced(data, start, end, bytes)| <= |data|
  {
  }

  /** The buffer once the loop has passed the rows before `yy`, whatever its length. */
  function RectRows(data: seq<Byte>, width: nat, height: nat, x: int, y: int, w: int, h: int, color: Rgb, yy: int): seq<Byte>
    decreases Max(0, yy - Max(0, y))
  {
    if yy <= Max(0, y) then data
    else
      var x0, x1 := Max(0, x), Min(width, x + w);
      Spliced(RectRows(data, width, height, x, y, w, h, color, yy - 1),
              Offset(width, x0, yy - 1), Offset(width, x1, yy - 1), Repeated(color, x1 - x0))
  }

  /** What _draw_rect makes of a buffer. */
  function RectOf(data: seq<Byte>, width: nat, height: nat, x: int, y: int, w: int, h: int, color: Rgb): seq<Byte> {
    RectRows(data, width, height, x, y, w, h, color, Max(Max(0, y), Min(height, y + h)))
  }

  lemma {:induction false} RowsPaint(data: seq<Byte>, width: nat, height: nat, x: int, y: int, w: int, h: int, color: Rgb, yy: int)
    requires Sized(data, width, height) && !Deletes(width, height, x, y, w, h)
    requires Max(0, y) <= yy <= Max(Max(0, y), Min(height, y + h))
    ensures Recoloured(data, RectRows(data, width, height, x, y, w, h, color, yy), width, height,
                       (px, py) => Max(0, y) <= py < yy && Max(0, x) <= px < Min(width, x + w), color)
    decreases yy
  {
    var x0, x1, y0 := Max(0, x), Min(width, x + w), Max(0, y);
    if yy > y0 {
      var before := RectRows(data, width, height, x, y, w, h, color, yy - 1);
      RowsPaint(data, width, height, x, y, w, h, color, yy - 1);
      RowProduct(width, y0, yy - 1);
      RowStep(before, width, height, x, y, w, h, yy - 1, color);
      Compose(data, before, RectRows(data, width, height, x, y, w, h, color, yy), width, height,
              (px, py) => y0 <= py < yy - 1 && x0 <= px < x1,
              (px, py) => py == yy - 1 && x0 <= px < x1,
              (px, py) => y0 <= py < yy && x0 <= px < x1, color);
    }
  }

  lemma {:induction false} RowsDelete(data: seq<Byte>, width: nat, height: nat, x: int, y: int, w: int, h: int, color: Rgb, yy: int)
    requires Sized(data, width, height) && Deletes(width, height, x, y, w, h)
    requires Max(0, y) < yy <= Min(height, y + h)
    ensures |RectRows(data, width, height, x, y, w, h, color, yy)| < |data|
    decreases yy
  {
    var x0, x1, y0 := Max(0, x), Min(width, x + w), Max(0, y);
    var before := RectRows(data, width, height, x, y, w, h, color, yy - 1);
    RowProduct(width, 0, y0);
    assert Repeated(color, x1 - x0) == [];
    SplicedShort(before, Offset(width, x0, yy - 1), Offset(width, x1, yy - 1), Repeated(color, x1 - x0));
    if yy > y0 + 1 {
      RowsDelete(data, width, height, x, y, w, h, color, yy - 1);
    } else {
      RowStep(before, width, height, x, y, w, h, yy - 1, color);
    }
  }

  /** On a whole canvas _draw_rect recolours exactly the rectangle's pixels that lie on it, unless it deletes bytes;
      Deletes says exactly when.  */
  lemma RectPaintsExactly(data: seq<Byte>, width: nat, height: nat, x: int, y: int, w: int, h: int, color: Rgb)
    requires Sized(data, width, height)
    ensures var after := RectOf(data, width, height, x, y, w, h, color);
            if Deletes(width, height, x, y, w, h) then |after| < |data|
            else Recoloured(data, after, width, height, (px, py) => Inside(x, y, w, h, px, py), color)
  {
    if Deletes(width, height, x, y, w, h) {
      RowsDelete(data, width, height, x, y, w, h, color, Min(height, y + h));
    } else {
      RowsPaint(data, width, height, x, y, w, h, color, Max(Max(0, y), Min(height, y + h)));
    }
  }

  /** The loop over the rows, on a buffer of any length. */
  method DrawRect(canvas: ByteArray, width: nat, height: nat, x: int, y: int, w: int, h: int, color: Rgb)
    modifies canvas
    ensures canvas.data == RectOf(old(canvas.data), width, height, x, y, w, h, color)
    ensures Sized(old(canvas.data), width, height) && !Deletes(width, height, x, y, w, h) ==>
              Recoloured(old(canvas.data), canvas.data, width, height, (px, py) => Inside(x, y, w, h, px, py), color)
    ensures Sized(old(canvas.data), width, height) && Deletes(width, height, x, y, w, h) ==> |canvas.data| < |old(canvas.data)|
  {
    var x0, y0 := Max(0, x), Max(0, y);
    var x1, y1 := Min(width, x + w), Min(height, y + h);
    ghost var before := canvas.data;
    for yy := y0 to Max(y0, y1)
      invariant canvas.data == RectRows(before, width, height, x, y, w, h, color, yy)
    {
      var start, end := (yy * width + x0) * 3, (yy * width + x1) * 3;
      canvas.AssignSlice(start, end, Repeated(color, x1 - x0));
    }
    if Sized(before, width, height) {
      RectPaintsExactly(before, width, height, x, y, w, h, color);
    }
  }

  /** A rectangle that does not end left of the canvas is safe, as every call in the script is. */
  lemma SafeWhenItReachesTheCanvas(width: nat, height: nat, x: int, y: int, w: int, h: int)
    requires x + w >= 0
    ensures !Deletes(width, height, x, y, w, h)
  {
    RowProduct(width, 0, Max(0, y));
  }

  /** A rectangle just left of a 4 by 2 canvas deletes the bytes of that canvas from its first row. */
  lemma LeftOfTheCanvasDeletes()
    ensures Deletes(4, 2, -3, 0, 2, 1)
  {
  }
}
