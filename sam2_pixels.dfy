/** `makeBlackPixelsTransparent` of SAM2-Demo/Common/SAM2.swift: the nested
    loop over an RGBA byte buffer that clears the alpha byte of every pixel
    whose red, green and blue bytes are all zero. Pixel (x, y) starts at
    byte y * bytesPerRow + 4 * x. */
module SAM2Pixels {
  import opened Arithmetic

  newtype UInt8 = b: int | 0 <= b < 256

  /** Byte k is the alpha byte of a pixel: k - 3 is the start of pixel
      (x, y) with x < width and y < height, read as row (k - 3) / bytesPerRow
      and column byte (k - 3) % bytesPerRow = 4 * x. */
  predicate IsAlphaByte(k: int, width: nat, height: nat, bytesPerRow: nat) {
    && bytesPerRow > 0 && k >= 3
    && (k - 3) / bytesPerRow < height
    && (k - 3) % bytesPerRow < 4 * width
    && (k - 3) % bytesPerRow % 4 == 0
  }

  /** The three colour bytes before byte k are all zero. */
  predicate IsBlackBefore(s: seq<UInt8>, k: int)
    requires 3 <= k < |s|
  {
    s[k - 3] == 0 && s[k - 2] == 0 && s[k - 1] == 0
  }

  /** What the loop makes of buffer `s`: the alpha byte of each black pixel
      becomes 0, every other byte stays. */
  function BlackToTransparent(s: seq<UInt8>, width: nat, height: nat, bytesPerRow: nat): (r: seq<UInt8>)
    ensures |r| == |s|
  {
    seq(|s|, k requires 0 <= k < |s| =>
      if IsAlphaByte(k, width, height, bytesPerRow) && IsBlackBefore(s, k) then 0 else s[k])
  }

  /** Of the four bytes of pixel (x, y), only the last is an alpha byte;
      it belongs to row y at column byte 4 * x. */
  lemma PixelLayout(x: nat, y: nat, i: nat, width: nat, height: nat, bytesPerRow: nat)
    requires x < width && y < height && i < 4 && 4 * width <= bytesPerRow
    ensures IsAlphaByte(y * bytesPerRow + 4 * x + i, width, height, bytesPerRow) <==> i == 3
    ensures (y * bytesPerRow + 4 * x) / bytesPerRow == y
    ensures (y * bytesPerRow + 4 * x) % bytesPerRow == 4 * x
  {
    var b := bytesPerRow;
    DivModUnique(y * b + 4 * x, b, y, 4 * x);
    var k := y * b + 4 * x + i;
    if i < 3 {
      if x >= 1 {
        DivModUnique(k - 3, b, y, 4 * x + i - 3);
        assert (4 * x + i - 3) % 4 == i + 1;
      } else if y >= 1 {
        assert k - 3 == (y - 1) * b + (b + i - 3);
        DivModUnique(k - 3, b, y - 1, b + i - 3);
        var c := b + i - 3;
        if c < 4 * width {
          assert (4 * width - c) % 4 != 0;
        }
      }
    }
  }

  /** Where pixel (x, y) starts, and that its four bytes lie in the buffer. */
  lemma PixelInBuffer(x: nat, y: nat, width: nat, height: nat, bytesPerRow: nat, length: nat, o: int)
    requires x < width && y < height && 4 * width <= bytesPerRow && height * bytesPerRow <= length
    requires o == y * bytesPerRow + 4 * x
    ensures 0 <= o && o + 3 < length
  {
    MulMonotone(y + 1, height, bytesPerRow);
    assert (y + 1) * bytesPerRow == y * bytesPerRow + bytesPerRow;
  }

  /** Pixel (x, y) of the result: its alpha byte is 0 exactly when its
      colour bytes are all 0, and is otherwise unchanged; its colour bytes
      are unchanged. */
  lemma TransparentPixel(s: seq<UInt8>, width: nat, height: nat, bytesPerRow: nat, x: nat, y: nat)
    requires 4 * width <= bytesPerRow && height * bytesPerRow <= |s|
    requires x < width && y < height
    ensures y * bytesPerRow + 4 * x + 3 < |s|
    ensures var o := y * bytesPerRow + 4 * x;
      var r := BlackToTransparent(s, width, height, bytesPerRow);
      && r[o] == s[o] && r[o + 1] == s[o + 1] && r[o + 2] == s[o + 2]
      && r[o + 3] == (if s[o] == 0 && s[o + 1] == 0 && s[o + 2] == 0 then 0 else s[o + 3])
  {
    var o := y * bytesPerRow + 4 * x;
    PixelInBuffer(x, y, width, height, bytesPerRow, |s|, o);
    PixelLayout(x, y, 0, width, height, bytesPerRow);
    PixelLayout(x, y, 1, width, height, bytesPerRow);
    PixelLayout(x, y, 2, width, height, bytesPerRow);
    PixelLayout(x, y, 3, width, height, bytesPerRow);
  }

  /** Byte k of the buffer as it is after the pixels before (x, y), in row
      order, have been processed. */
  function Progress(s: seq<UInt8>, k: nat, width: nat, height: nat, bytesPerRow: nat, x: nat, y: nat): UInt8
    requires k < |s|
  {
    if IsAlphaByte(k, width, height, bytesPerRow) && IsBlackBefore(s, k)
       && ((k - 3) / bytesPerRow < y || ((k - 3) / bytesPerRow == y && (k - 3) % bytesPerRow < 4 * x))
    then 0 else s[k]
  }

  /** Processing pixel (x, y) changes the progress of its alpha byte only. */
  lemma ProgressStep(s: seq<UInt8>, k: nat, width: nat, height: nat, bytesPerRow: nat, x: nat, y: nat, o: int)
    requires x < width && y < height && 4 * width <= bytesPerRow
    requires o == y * bytesPerRow + 4 * x && k < |s| && k != o + 3
    ensures Progress(s, k, width, height, bytesPerRow, x + 1, y) == Progress(s, k, width, height, bytesPerRow, x, y)
  {
    if IsAlphaByte(k, width, height, bytesPerRow) {
      var b := bytesPerRow;
      var row, col := (k - 3) / b, (k - 3) % b;
      assert k - 3 == row * b + col;
    }
  }

  /** The bytes of pixel (x, y) before it is processed. */
  lemma ProgressAtPixel(s: seq<UInt8>, width: nat, height: nat, bytesPerRow: nat, x: nat, y: nat, o: int)
    requires x < width && y < height && 4 * width <= bytesPerRow && height * bytesPerRow <= |s|
    requires o == y * bytesPerRow + 4 * x
    ensures 0 <= o && o + 3 < |s|
    ensures Progress(s, o, width, height, bytesPerRow, x, y) == s[o]
    ensures Progress(s, o + 1, width, height, bytesPerRow, x, y) == s[o + 1]
    ensures Progress(s, o + 2, width, height, bytesPerRow, x, y) == s[o + 2]
    ensures Progress(s, o + 3, width, height, bytesPerRow, x, y) == s[o + 3]
    ensures Progress(s, o + 3, width, height, bytesPerRow, x + 1, y) ==
      if s[o] == 0 && s[o + 1] == 0 && s[o + 2] == 0 then 0 else s[o + 3]
  {
    PixelInBuffer(x, y, width, height, bytesPerRow, |s|, o);
    PixelLayout(x, y, 0, width, height, bytesPerRow);
    PixelLayout(x, y, 1, width, height, bytesPerRow);
    PixelLayout(x, y, 2, width, height, bytesPerRow);
    PixelLayout(x, y, 3, width, height, bytesPerRow);
  }

  /** A finished row is the start of the next one. */
  lemma ProgressRowEnd(s: seq<UInt8>, k: nat, width: nat, height: nat, bytesPerRow: nat, y: nat)
    requires k < |s|
    ensures Progress(s, k, width, height, bytesPerRow, width, y) == Progress(s, k, width, height, bytesPerRow, 0, y + 1)
  {
  }

  /** Before the first row no pixel has been processed. */
  lemma ProgressStart(s: seq<UInt8>, k: nat, width: nat, height: nat, bytesPerRow: nat)
    requires k < |s|
    ensures Progress(s, k, width, height, bytesPerRow, 0, 0) == s[k]
  {
    if IsAlphaByte(k, width, height, bytesPerRow) {
      DivNonNegative(k - 3, bytesPerRow);
    }
  }

  /** After the last row every pixel has been processed. */
  lemma ProgressComplete(s: seq<UInt8>, k: nat, width: nat, height: nat, bytesPerRow: nat)
    requires k < |s|
    ensures Progress(s, k, width, height, bytesPerRow, 0, height) == BlackToTransparent(s, width, height, bytesPerRow)[k]
  {
  }

  method MakeBlackPixelsTransparent(pixels: array<UInt8>, width: nat, height: nat, bytesPerRow: nat)
    requires 4 * width <= bytesPerRow && height * bytesPerRow <= pixels.Length
    modifies pixels
    ensures pixels[..] == BlackToTransparent(old(pixels[..]), width, height, bytesPerRow)
  {
    ghost var original := pixels[..];
    forall k | 0 <= k < pixels.Length
      ensures pixels[k] == Progress(original, k, width, height, bytesPerRow, 0, 0)
    {
      ProgressStart(original, k, width, height, bytesPerRow);
    }
    for y := 0 to height
      invariant forall k :: 0 <= k < pixels.Length ==>
        pixels[k] == Progress(original, k, width, height, bytesPerRow, 0, y)
    {
      for x := 0 to width
        invariant forall k :: 0 <= k < pixels.Length ==>
          pixels[k] == Progress(original, k, width, height, bytesPerRow, x, y)
      {
        var offset := (y * bytesPerRow) + (x * 4);
        ProgressAtPixel(original, width, height, bytesPerRow, x, y, offset);
        var red := pixels[offset];
        var green := pixels[offset + 1];
        var blue := pixels[offset + 2];
        if red == 0 && green == 0 && blue == 0 {
          pixels[offset + 3] := 0;
        }
        forall k | 0 <= k < pixels.Length && k != offset + 3
          ensures pixels[k] == Progress(original, k, width, height, bytesPerRow, x + 1, y)
        {
          ProgressStep(original, k, width, height, bytesPerRow, x, y, offset);
        }
      }
      forall k | 0 <= k < pixels.Length
        ensures pixels[k] == Progress(original, k, width, height, bytesPerRow, 0, y + 1)
      {
        ProgressRowEnd(original, k, width, height, bytesPerRow, y);
      }
    }
    forall k | 0 <= k < pixels.Length
      ensures pixels[k] == BlackToTransparent(original, width, height, bytesPerRow)[k]
    {
      ProgressComplete(original, k, width, height, bytesPerRow);
    }
  }
}
