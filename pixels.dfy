/** The frame retro_run draws into the locked streaming texture: every
    visible word opaque black, then a 200 x 200 opaque red square. */
module Pixels {

  /** One 0xAARRGGBB pixel word, as the texture stores it. */
  type Word = bv32

  const Width: int := 640
  const Height: int := 480
  const OpaqueBlack: Word := 0xFF00_0000
  const OpaqueRed: Word := 0xFFFF_0000

  /** The red square: rows and columns 100 up to (not including) 300. */
  const RectTop: int := 100
  const RectBottom: int := 300
  const RectLeft: int := 100
  const RectRight: int := 300

  /** Words per row for a pitch given in bytes: C's `pitch / 4`, which
      truncates toward zero (Dafny's `/` is Euclidean). */
  function Stride(pitch: int): (s: int)
    ensures pitch >= 0 ==> 0 <= s && 4 * s <= pitch < 4 * s + 4
    ensures pitch < 0 ==> s <= 0 && 4 * s - 4 < pitch <= 4 * s
  {
    if pitch >= 0 then pitch / 4 else -((-pitch) / 4)
  }

  /** What the two loop nests need of the locked buffer to stay in bounds:
      a row holds at least Width words and the buffer at least Height rows. */
  predicate FrameFits(pitch: int, words: int)
  {
    Stride(pitch) >= Width && words >= Height * Stride(pitch)
  }

  /** The colour the finished frame shows at row y, column x. */
  function ExpectedColour(y: int, x: int): Word
  {
    if RectTop <= y < RectBottom && RectLeft <= x < RectRight then OpaqueRed else OpaqueBlack
  }

  /** Row and column of word i when a row holds `stride` words. */
  function Row(i: int, stride: int): int
    requires stride > 0
  {
    i / stride
  }

  function Col(i: int, stride: int): int
    requires stride > 0
  {
    i % stride
  }

  /** Does word i lie in rows top..bottom-1 and columns left..right-1? */
  predicate InRect(i: int, stride: int, top: int, bottom: int, left: int, right: int)
    requires stride > 0
  {
    top <= Row(i, stride) < bottom && left <= Col(i, stride) < right
  }

  /** `before` with the rectangle's words set to `colour` and every other
      word (stride padding included) left as it was. */
  function Painted(before: seq<Word>, stride: int, top: int, bottom: int, left: int, right: int,
                   colour: Word): (p: seq<Word>)
    requires stride > 0
    ensures |p| == |before|
    ensures forall i | 0 <= i < |p| :: p[i] == colour || p[i] == before[i]
  {
    seq(|before|, i requires 0 <= i < |before| =>
      if InRect(i, stride, top, bottom, left, right) then colour else before[i])
  }

  /** The buffer after both loop nests of retro_run. */
  function Rendered(before: seq<Word>, stride: int): (r: seq<Word>)
    requires stride > 0
    ensures |r| == |before|
    ensures forall i | 0 <= i < |r| :: r[i] == OpaqueBlack || r[i] == OpaqueRed || r[i] == before[i]
  {
    Painted(Painted(before, stride, 0, Height, 0, Width, OpaqueBlack),
            stride, RectTop, RectBottom, RectLeft, RectRight, OpaqueRed)
  }

  /** Word y * stride + x sits in row y, column x. */
  lemma IndexRowCol(y: int, x: int, stride: int)
    requires stride > 0 && 0 <= x < stride
    ensures Row(y * stride + x, stride) == y && Col(y * stride + x, stride) == x
  {
    var i := y * stride + x;
    var q, r := i / stride, i % stride;
    assert i == q * stride + r;
    assert (y - q) * stride == r - x;
    if q < y {
      assert (y - q) * stride >= stride by { MulAtLeast(y - q, stride); }
    } else if q > y {
      assert (q - y) * stride >= stride by { MulAtLeast(q - y, stride); }
    }
  }

  lemma MulAtLeast(a: int, b: int)
    requires a >= 1 && b >= 0
    ensures a * b >= b
  {
  }

  /** A non-negative index lies below n full rows exactly when its row does. */
  lemma RowBelow(i: int, stride: int, n: int)
    requires stride > 0 && i >= 0
    ensures i < n * stride <==> Row(i, stride) < n
  {
    var q, r := i / stride, i % stride;
    assert i == q * stride + r;
    if q < n {
      assert (n - q) * stride >= stride by { MulAtLeast(n - q, stride); }
    } else {
      assert (q - n) * stride >= 0 by { MulAtLeast(q - n + 1, stride); }
    }
  }

  /** Painting no rows changes nothing. */
  lemma PaintedNoRows(before: seq<Word>, stride: int, top: int, left: int, right: int, colour: Word)
    requires stride > 0
    ensures Painted(before, stride, top, top, left, right, colour) == before
  {
  }

  /** Rows top..y-1 plus row y finished is rows top..y. */
  lemma PaintedNextRow(before: seq<Word>, stride: int, top: int, y: int, left: int, right: int,
                       colour: Word)
    requires stride > 0 && top <= y
    ensures Painted(Painted(before, stride, top, y, left, right, colour), stride, y, y + 1, left, right, colour)
         == Painted(before, stride, top, y + 1, left, right, colour)
  {
  }

  /** Row y finished up to column x, plus word y * stride + x, is row y
      finished up to column x + 1. */
  lemma PaintedNextWord(before: seq<Word>, stride: int, y: int, left: int, x: int, colour: Word)
    requires 0 <= left <= x < stride
    requires 0 <= y * stride + x < |before|
    ensures Painted(before, stride, y, y + 1, left, x + 1, colour)
         == Painted(before, stride, y, y + 1, left, x, colour)[y * stride + x := colour]
  {
    IndexRowCol(y, x, stride);
  }

  /** Writes `colour` to every word y * stride + x with top <= y < bottom and
      left <= x < right, row by row, as both loop nests of retro_run do.
      No other word of the buffer changes. */
  method FillRect(pixels: array<Word>, stride: int, top: int, bottom: int, left: int, right: int,
                  colour: Word)
    requires stride > 0
    requires 0 <= top <= bottom && 0 <= left <= right <= stride
    requires bottom * stride <= pixels.Length
    modifies pixels
    ensures pixels[..] == Painted(old(pixels[..]), stride, top, bottom, left, right, colour)
  {
    ghost var before := pixels[..];
    PaintedNoRows(before, stride, top, left, right, colour);
    for y := top to bottom
      invariant pixels[..] == Painted(before, stride, top, y, left, right, colour)
    {
      ghost var done := pixels[..];
      PaintedNoRows(done, stride, y, left, left, colour);
      for x := left to right
        invariant pixels[..] == Painted(done, stride, y, y + 1, left, x, colour)
      {
        var k := y * stride + x;
        IndexRowCol(y, x, stride);
        RowBelow(k, stride, bottom);
        PaintedNextWord(done, stride, y, left, x, colour);
        pixels[k] := colour;
      }
      PaintedNextRow(before, stride, top, y, left, right, colour);
    }
  }

  /** Every visible word of the rendered frame holds its expected colour. */
  lemma RenderedAt(before: seq<Word>, stride: int, y: int, x: int)
    requires stride >= Width && |before| >= Height * stride
    requires 0 <= y < Height && 0 <= x < Width
    ensures 0 <= y * stride + x < |before|
    ensures Rendered(before, stride)[y * stride + x] == ExpectedColour(y, x)
  {
    IndexRowCol(y, x, stride);
    RowBelow(y * stride + x, stride, Height);
  }

  /** Stride padding at the end of each visible row is left untouched. */
  lemma RenderedKeepsPadding(before: seq<Word>, stride: int, y: int, x: int)
    requires |before| >= Height * stride
    requires 0 <= y < Height && Width <= x < stride
    ensures 0 <= y * stride + x < |before|
    ensures Rendered(before, stride)[y * stride + x] == before[y * stride + x]
  {
    IndexRowCol(y, x, stride);
    RowBelow(y * stride + x, stride, Height);
  }

  /** Words past the last visible row are left untouched. */
  lemma RenderedKeepsTail(before: seq<Word>, stride: int, i: int)
    requires stride > 0
    requires Height * stride <= i < |before|
    ensures Rendered(before, stride)[i] == before[i]
  {
    RowBelow(i, stride, Height);
  }
}
