/** The packed RAW10 layout that `unpack10BitBayer` decodes (the RAW10 data
    format of the MIPI CSI-2 specification):
    four 10-bit pixels in five bytes; bytes 0..3 hold the eight high bits of
    pixels 0..3, byte 4 holds their two low bits, pixel k at bits 2k and
    2k+1. */
module Raw10 {

  /** Pixel k of a group, as the source computes it:
      `(msb << 2) | ((lsbs >> 2k) & 3)` on 16 bits. */
  function UnpackPixel(msb: bv8, lsbs: bv8, k: nat): (v: bv16)
    requires k < 4
    ensures v < 1024
  {
    ((msb as bv16) << 2) | (((lsbs as bv16) >> (2 * k)) & 3)
  }

  /** The high eight bits of a pixel are its byte, its low two bits are
      bits 2k and 2k+1 of the fifth byte. */
  lemma UnpackPixelFields(msb: bv8, lsbs: bv8, k: nat)
    requires k < 4
    ensures var v := UnpackPixel(msb, lsbs, k);
            v >> 2 == msb as bv16 && v & 3 == (lsbs as bv16 >> (2 * k)) & 3
  {
  }

  /** The encoder side: four pixels of at most 10 bits packed into five
      bytes. */
  function PackGroup(p0: bv16, p1: bv16, p2: bv16, p3: bv16): (g: seq<bv8>)
    requires p0 < 1024 && p1 < 1024 && p2 < 1024 && p3 < 1024
    ensures |g| == 5
  {
    [(p0 >> 2) as bv8, (p1 >> 2) as bv8, (p2 >> 2) as bv8, (p3 >> 2) as bv8,
     ((p0 & 3) | ((p1 & 3) << 2) | ((p2 & 3) << 4) | ((p3 & 3) << 6)) as bv8]
  }

  /** Unpacking a packed group gives back the four pixels: the decoder is
      bit-exact. */
  lemma UnpackInvertsPack(p0: bv16, p1: bv16, p2: bv16, p3: bv16)
    requires p0 < 1024 && p1 < 1024 && p2 < 1024 && p3 < 1024
    ensures var g := PackGroup(p0, p1, p2, p3);
            UnpackPixel(g[0], g[4], 0) == p0 && UnpackPixel(g[1], g[4], 1) == p1
            && UnpackPixel(g[2], g[4], 2) == p2 && UnpackPixel(g[3], g[4], 3) == p3
  {
  }

  /** Every group of five bytes is the packing of the four pixels it decodes
      to, so no two groups decode alike. */
  lemma PackInvertsUnpack(g: seq<bv8>)
    requires |g| == 5
    ensures PackGroup(UnpackPixel(g[0], g[4], 0), UnpackPixel(g[1], g[4], 1),
                      UnpackPixel(g[2], g[4], 2), UnpackPixel(g[3], g[4], 3)) == g
  {
  }

  /** Where the group holding pixel x starts, for a row whose groups start
      at `row` in the source buffer (row y starts at y * stride). */
  function GroupStart(row: nat, x: nat): nat {
    row + 5 * (x / 4)
  }

  /** The buffer is long enough for every row's groups. */
  predicate Covers(src: seq<bv8>, width: nat, height: nat, stride: nat) {
    height == 0 || (height - 1) * stride + 5 * ((width + 3) / 4) <= |src|
  }

  /** Every group of a row lies inside the buffer. */
  predicate RowFits(src: seq<bv8>, width: nat, row: nat) {
    forall c :: 0 <= c < width ==> GroupStart(row, c) + 4 < |src|
  }

  lemma CoversGroup(src: seq<bv8>, width: nat, height: nat, stride: nat, y: nat, x: nat)
    requires Covers(src, width, height, stride) && y < height && x < width
    ensures GroupStart(y * stride, x) + 4 < |src|
  {
    var below := height - 1 - y;
    assert (height - 1) * stride == y * stride + below * stride;
    assert below * stride >= 0;
    assert (width + 3) / 4 == (width - 1) / 4 + 1;
    assert x / 4 <= (width - 1) / 4;
  }

  /** Pixel x of the row whose groups start at `row`: pixel x % 4 of the
      group that holds x. */
  function PixelAt(src: seq<bv8>, row: nat, x: nat): bv16
    requires GroupStart(row, x) + 4 < |src|
  {
    var b := GroupStart(row, x);
    UnpackPixel(src[b + x % 4], src[b + 4], x % 4)
  }

  /** One pass of the inner loop: the group at `g` fills up to four pixels
      of row y starting at x, and nothing else. */
  method UnpackGroup(dst: array2<bv16>, src: seq<bv8>, row: nat, y: nat, x: nat, g: nat)
    requires y < dst.Length0 && x < dst.Length1 && x % 4 == 0
    requires g == GroupStart(row, x) && g + 4 < |src|
    modifies dst
    ensures forall c :: 0 <= c < dst.Length1 ==>
              dst[y, c] == if x <= c < x + 4 then PixelAt(src, row, c) else old(dst[y, c])
    ensures forall r, c :: 0 <= r < dst.Length0 && r != y && 0 <= c < dst.Length1 ==> dst[r, c] == old(dst[r, c])
  {
    var width := dst.Length1;
    forall c | x <= c < x + 4
      ensures c / 4 == x / 4 && c % 4 == c - x
    {
    }
    var remaining := if width - x < 4 then width - x else 4;
    if remaining >= 1 {
      dst[y, x] := UnpackPixel(src[g], src[g + 4], 0);
    }
    if remaining >= 2 {
      dst[y, x + 1] := UnpackPixel(src[g + 1], src[g + 4], 1);
    }
    if remaining >= 3 {
      dst[y, x + 2] := UnpackPixel(src[g + 2], src[g + 4], 2);
    }
    if remaining >= 4 {
      dst[y, x + 3] := UnpackPixel(src[g + 3], src[g + 4], 3);
    }
  }

  /** Every group of row y lies inside the buffer. */
  lemma CoversRow(src: seq<bv8>, width: nat, height: nat, stride: nat, y: nat)
    requires Covers(src, width, height, stride) && y < height
    ensures RowFits(src, width, y * stride)
  {
    forall c | 0 <= c < width
      ensures GroupStart(y * stride, c) + 4 < |src|
    {
      CoversGroup(src, width, height, stride, y, c);
    }
  }

  /** The inner loop of `unpack10BitBayer`: row y of the image, whose groups
      start at `row`, one group of four pixels at a time; the other rows are
      left alone. */
  method UnpackRow(dst: array2<bv16>, src: seq<bv8>, row: nat, y: nat)
    requires y < dst.Length0 && RowFits(src, dst.Length1, row)
    modifies dst
    ensures forall c :: 0 <= c < dst.Length1 ==> dst[y, c] == PixelAt(src, row, c)
    ensures forall r, c :: 0 <= r < dst.Length0 && r != y && 0 <= c < dst.Length1 ==> dst[r, c] == old(dst[r, c])
  {
    var x := 0;
    while x < dst.Length1
      invariant x <= dst.Length1 + 3 && x % 4 == 0
      invariant forall c :: 0 <= c < x && c < dst.Length1 ==> dst[y, c] == PixelAt(src, row, c)
      invariant forall r, c :: 0 <= r < dst.Length0 && r != y && 0 <= c < dst.Length1 ==> dst[r, c] == old(dst[r, c])
    {
      UnpackGroup(dst, src, row, y, x, GroupStart(row, x));
      x := x + 4;
    }
  }

  /** The unpacking loops of `unpack10BitBayer`: a height-by-width image of
      16-bit values, each below 1024, pixel (x, y) decoded from the group
      holding it in the row starting at y * stride. */
  method UnpackRows(src: seq<bv8>, width: nat, height: nat, stride: nat) returns (dst: array2<bv16>)
    requires Covers(src, width, height, stride)
    ensures fresh(dst) && dst.Length0 == height && dst.Length1 == width
    ensures forall y, x :: 0 <= y < height && 0 <= x < width ==>
              GroupStart(y * stride, x) + 4 < |src| && dst[y, x] == PixelAt(src, y * stride, x) && dst[y, x] < 1024
  {
    dst := new bv16[height, width];
    for y := 0 to height
      invariant forall r, c :: 0 <= r < y && 0 <= c < width ==>
                  GroupStart(r * stride, c) + 4 < |src| && dst[r, c] == PixelAt(src, r * stride, c)
    {
      CoversRow(src, width, height, stride, y);
      UnpackRow(dst, src, y * stride, y);
    }
  }

  /** `convertTo(CV_8UC1, 1.0 / 4.0)` on one pixel: v / 4 rounded to the
      nearest integer, ties to the even one, then saturated at 255. The
      result is within half a step of v / 4 except for the two top values,
      which saturate. */
  function ScaleTo8Bit(v: bv16): (b: bv8)
    requires v < 1024
    ensures v < 1022 ==> v <= ((b as bv16) << 2) + 2 && ((b as bv16) << 2) <= v + 2
    ensures v < 1022 && v & 3 == 2 ==> b & 1 == 0
    ensures v >= 1022 ==> b == 255
  {
    var q := v >> 2;
    var r := v & 3;
    var rounded := if r < 2 || (r == 2 && q & 1 == 0) then q else q + 1;
    if rounded > 255 then 255 else rounded as bv8
  }

  /** The conversion keeps the order of intensities. */
  lemma ScaleTo8BitMonotone(v: bv16, w: bv16)
    requires v <= w < 1024
    ensures ScaleTo8Bit(v) <= ScaleTo8Bit(w)
  {
  }

  /** The 8-bit pixel differs from the group's high byte for that pixel by
      at most one: the two low bits only decide the rounding. */
  lemma ScaledPixelNearHighByte(msb: bv8, lsbs: bv8, k: nat)
    requires k < 4
    ensures var b := ScaleTo8Bit(UnpackPixel(msb, lsbs, k));
            b == msb || (msb < 255 && b == msb + 1)
  {
  }

  /** The final conversion of `unpack10BitBayer`, pixel by pixel. */
  method ConvertTo8Bit(src: array2<bv16>) returns (dst: array2<bv8>)
    requires forall y, x :: 0 <= y < src.Length0 && 0 <= x < src.Length1 ==> src[y, x] < 1024
    ensures fresh(dst) && dst.Length0 == src.Length0 && dst.Length1 == src.Length1
    ensures forall y, x :: 0 <= y < src.Length0 && 0 <= x < src.Length1 ==>
              dst[y, x] == ScaleTo8Bit(src[y, x])
  {
    dst := new bv8[src.Length0, src.Length1];
    var y := 0;
    while y < src.Length0
      invariant y <= src.Length0
      invariant forall r, c :: 0 <= r < y && 0 <= c < src.Length1 ==> dst[r, c] == ScaleTo8Bit(src[r, c])
    {
      var x := 0;
      while x < src.Length1
        invariant x <= src.Length1
        invariant forall r, c :: 0 <= r < y && 0 <= c < src.Length1 ==> dst[r, c] == ScaleTo8Bit(src[r, c])
        invariant forall c :: 0 <= c < x ==> dst[y, c] == ScaleTo8Bit(src[y, c])
      {
        dst[y, x] := ScaleTo8Bit(src[y, x]);
        x := x + 1;
      }
      y := y + 1;
    }
  }

  /** `unpack10BitBayer`: the 8-bit image whose pixel (x, y) is the scaled
      10-bit value decoded from the group holding it. */
  method Unpack10BitBayer(src: seq<bv8>, width: nat, height: nat, stride: nat) returns (result: array2<bv8>)
    requires Covers(src, width, height, stride)
    ensures fresh(result) && result.Length0 == height && result.Length1 == width
    ensures forall y, x :: 0 <= y < height && 0 <= x < width ==>
              GroupStart(y * stride, x) + 4 < |src| && result[y, x] == ScaleTo8Bit(PixelAt(src, y * stride, x))
  {
    var raw := UnpackRows(src, width, height, stride);
    result := ConvertTo8Bit(raw);
  }
}
