/** The bitmap text renderer of the server (pkg/graphics): a byte string is laid
    out on a 40 x 15 grid of 8 x 16 character cells and painted into a 320 x 240
    RGBA image, white where the glyph bit of the character is set and black
    elsewhere. Go's panics are `Panic` results. */
module Graphics {

  newtype byte = b: int | 0 <= b < 256

  datatype Result<T> = Ok(value: T) | Panic(message: string)

  const Width := 320
  const Height := 240
  const NumPixels := Width * Height
  const Cols := 40
  const Rows := 15
  const CharWidth := 8
  const CharHeight := 16

  /** Go's `/` on `int`: the quotient is truncated toward zero. */
  function GoDiv(a: int, b: int): (q: int)
    requires b > 0
    ensures a >= 0 ==> q == a / b
  {
    if a >= 0 then a / b else -((-a) / b)
  }

  /** Go's `%` on `int`: the remainder takes the sign of the dividend. */
  function GoMod(a: int, b: int): (r: int)
    requires b > 0
    ensures a >= 0 ==> r == a % b
    ensures a < 0 ==> -b < r <= 0
    ensures r == a - b * GoDiv(a, b)
  {
    a - b * GoDiv(a, b)
  }

  function Pow2(k: nat): (p: nat)
    ensures p >= 1
  {
    if k == 0 then 1 else 2 * Pow2(k - 1)
  }

  /** `v >> k` on an unsigned value: `k` halvings, each dropping the low bit. */
  function Shr(v: nat, k: nat): nat
  {
    if k == 0 then v else Shr(v / 2, k - 1)
  }

  /** `bitAt(val, i)` (bit_at.go): bit `7 - i` of `val`, so bit 0 is the most
      significant one; any `i` outside 0..7 panics. */
  function BitAt(val: byte, i: int): (r: Result<bool>)
    ensures r.Ok? <==> 0 <= i <= 7
  {
    if i < 0 || i > 7 then Panic("i out of range")
    else Ok(Shr(val as int, 7 - i) % 2 == 1)
  }

  /** The low `n` binary digits of `v`, most significant first. */
  function BitsOf(v: nat, n: nat): (bs: seq<bool>)
    ensures |bs| == n
  {
    if n == 0 then [] else BitsOf(v / 2, n - 1) + [v % 2 == 1]
  }

  /** The number whose binary digits, most significant first, are `bs`. */
  function FromBits(bs: seq<bool>): nat
  {
    if bs == [] then 0 else 2 * FromBits(bs[..|bs| - 1]) + (if bs[|bs| - 1] then 1 else 0)
  }

  /** The eight bits of a byte, most significant first. */
  function Bits(val: byte): (bs: seq<bool>)
    ensures |bs| == 8
  {
    BitsOf(val as int, 8)
  }

  /** Digit `k` of `BitsOf(v, n)` is the low bit of `v >> (n - 1 - k)`. */
  lemma {:induction false} BitsOfAt(v: nat, n: nat, k: nat)
    requires k < n
    ensures BitsOf(v, n)[k] == (Shr(v, n - 1 - k) % 2 == 1)
    decreases n
  {
    if k < n - 1 {
      BitsOfAt(v / 2, n - 1, k);
    }
  }

  /** `Bits` lists exactly what `bitAt` reads, index by index. */
  lemma BitsAreBitAt(val: byte, i: nat)
    requires i < 8
    ensures BitAt(val, i) == Ok(Bits(val)[i])
  {
    BitsOfAt(val as int, 8, i);
  }

  /** Bit order: index 0 is the high bit (`val >= 128`) and index 7 the low bit
      (`val` is odd). */
  lemma BitOrder(val: byte)
    ensures BitAt(val, 0) == Ok(val >= 128)
    ensures BitAt(val, 7) == Ok(val % 2 == 1)
  {
    assert Pow2(7) == 128;
    ShrTop(val as int, 7);
  }

  /** A number below `2^(k+1)` shifted right by `k` is its top bit. */
  lemma {:induction false} ShrTop(v: nat, k: nat)
    requires v < 2 * Pow2(k)
    ensures Shr(v, k) == if v >= Pow2(k) then 1 else 0
    decreases k
  {
    if k > 0 {
      ShrTop(v / 2, k - 1);
    }
  }

  /** Any number below `2^n` is given back by its `n` digits. */
  lemma {:induction false} FromBitsOf(v: nat, n: nat)
    requires v < Pow2(n)
    ensures FromBits(BitsOf(v, n)) == v
    decreases n
  {
    if n > 0 {
      FromBitsOf(v / 2, n - 1);
      var bs := BitsOf(v, n);
      assert bs[..n - 1] == BitsOf(v / 2, n - 1);
    }
  }

  /** `n` digits are given back by the number they denote. */
  lemma {:induction false} BitsOfFrom(bs: seq<bool>)
    ensures BitsOf(FromBits(bs), |bs|) == bs
    decreases |bs|
  {
    if bs != [] {
      var n := |bs|;
      BitsOfFrom(bs[..n - 1]);
      var v := FromBits(bs);
      assert v / 2 == FromBits(bs[..n - 1]);
      assert bs == bs[..n - 1] + [bs[n - 1]];
    }
  }

  /** `n` binary digits make a number below `2^n`. */
  lemma {:induction false} FromBitsBound(bs: seq<bool>)
    ensures FromBits(bs) < Pow2(|bs|)
    decreases |bs|
  {
    if bs != [] {
      FromBitsBound(bs[..|bs| - 1]);
    }
  }

  /** Round trip: the eight bits `bitAt` reads, weighted `2^(7 - i)`, give back
      the byte. */
  lemma BitsRoundTrip(val: byte)
    ensures FromBits(Bits(val)) == val as int
  {
    assert Pow2(8) == 256;
    FromBitsOf(val as int, 8);
  }

  /** The other direction: any eight bits make a byte whose bits they are. */
  lemma FromBitsRoundTrip(bs: seq<bool>)
    requires |bs| == 8
    ensures FromBits(bs) < 256
    ensures Bits(FromBits(bs) as byte) == bs
  {
    FromBitsBound(bs);
    assert Pow2(8) == 256;
    BitsOfFrom(bs);
  }

  /** All-zero and all-one bytes. */
  lemma BitAtConstants(i: int)
    requires 0 <= i <= 7
    ensures BitAt(0, i) == Ok(false)
    ensures BitAt(255, i) == Ok(true)
  {
  }

  /** `Glyph` (glyph.go): sixteen rows of eight pixels, one byte per row. */
  type Glyph = g: seq<byte> | |g| == CharHeight witness [0, 0, 0, 0, 0, 0, 0, 0, 0, 0, 0, 0, 0, 0, 0, 0]

  /** `Glyph.Pixel(x, y)`: row `y` of the glyph (an index out of 0..15 panics),
      then its bit `x` (an `x` outside 0..7 panics). */
  function Pixel(g: Glyph, x: int, y: int): (r: Result<bool>)
    ensures r.Ok? <==> 0 <= y < CharHeight && 0 <= x <= 7
    ensures r.Ok? ==> r == BitAt(g[y], x)
  {
    if y < 0 || y >= |g| then Panic("index out of range") else BitAt(g[y], x)
  }

  /** Row locality: a pixel depends on its own row only, so rewriting another row
      leaves it as it was. */
  lemma PixelRowLocal(g: Glyph, y': int, b: byte, x: int, y: int)
    requires 0 <= y' < CharHeight && y' != y
    ensures Pixel(g[y' := b], x, y) == Pixel(g, x, y)
  {
  }

  /** The leftmost pixel of a row is its most significant bit. */
  lemma PixelLeftmost(g: Glyph, y: int)
    requires 0 <= y < CharHeight
    ensures Pixel(g, 0, y) == Ok(g[y] >= 128)
  {
    BitOrder(g[y]);
  }

  /** A zero row has no shaded pixel and a 0xFF row is fully shaded. */
  lemma PixelRowExtremes(g: Glyph, x: int, y: int)
    requires 0 <= y < CharHeight && 0 <= x <= 7
    ensures g[y] == 0 ==> Pixel(g, x, y) == Ok(false)
    ensures g[y] == 255 ==> Pixel(g, x, y) == Ok(true)
  {
    BitAtConstants(x);
  }

  const Black: seq<byte> := [0, 0, 0, 255]
  const White: seq<byte> := [255, 255, 255, 255]

  /** The character cell pixel `i` falls in: its column and row on the grid. */
  function CellColumn(i: int): int
  {
    GoDiv(GoMod(i, Width), CharWidth)
  }

  function CellRow(i: int): int
  {
    GoDiv(GoDiv(i, Width), CharHeight)
  }

  /** The character `getPixel` reads for pixel `i`: row-major over the grid. */
  function PixelCharIndex(i: int): int
  {
    CellRow(i) * Cols + CellColumn(i)
  }

  /** Every pixel of the image lies in a cell of the 40 x 15 grid, so the
      character it reads is one of the first 600 and its position inside the
      cell is within the 8 x 16 glyph. */
  lemma CellInRange(i: int)
    requires 0 <= i < NumPixels
    ensures 0 <= CellColumn(i) < Cols && 0 <= CellRow(i) < Rows
    ensures 0 <= PixelCharIndex(i) < Cols * Rows
    ensures 0 <= GoMod(i, Width) - CellColumn(i) * CharWidth < CharWidth
    ensures 0 <= GoDiv(i, Width) - CellRow(i) * CharHeight < CharHeight
  {
  }

  /** `getPixel(s, i)` (tui.go): the RGBA bytes of pixel `i`. A character index at
      or past the end of `s`, or a byte without a glyph in `font` (the font table
      of the package, a parameter here), gives black; otherwise the pixel is
      white exactly when the glyph bit under it is set. */
  function GetPixel(s: seq<byte>, font: map<int, Glyph>, i: int): (r: Result<seq<byte>>)
    ensures 0 <= i < NumPixels ==> r.Ok? && (r.value == Black || r.value == White)
  {
    var x := GoMod(i, Width);
    var y := GoDiv(i, Width);
    var col := GoDiv(x, CharWidth);
    var row := GoDiv(y, CharHeight);
    var charIndex := row * Cols + col;
    if charIndex >= |s| then Ok(Black)
    else if charIndex < 0 then Panic("index out of range")
    else
      var ch := s[charIndex];
      if ch as int !in font then Ok(Black)
      else
        var charX := x - col * CharWidth;
        var charY := y - row * CharHeight;
        match Pixel(font[ch as int], charX, charY)
        case Panic(msg) => Panic(msg)
        case Ok(shaded) => if shaded then Ok(White) else Ok(Black)
  }

  /** The black fallback: a character index past the end of `s`, or a byte the
      font has no glyph for, paints black. */
  lemma BlackFallback(s: seq<byte>, font: map<int, Glyph>, i: int)
    requires 0 <= i < NumPixels
    requires PixelCharIndex(i) >= |s| || s[PixelCharIndex(i)] as int !in font
    ensures GetPixel(s, font, i) == Ok(Black)
  {
    CellInRange(i);
  }

  /** Shading: for a character with a glyph, the pixel is white exactly when the
      glyph bit at its position inside the cell is set. */
  lemma Shading(s: seq<byte>, font: map<int, Glyph>, i: int)
    requires 0 <= i < NumPixels && PixelCharIndex(i) < |s|
    requires s[PixelCharIndex(i)] as int in font
    ensures var g := font[s[PixelCharIndex(i)] as int];
      var charX := GoMod(i, Width) - CellColumn(i) * CharWidth;
      var charY := GoDiv(i, Width) - CellRow(i) * CharHeight;
      && Pixel(g, charX, charY).Ok?
      && (GetPixel(s, font, i) == Ok(White) <==> Pixel(g, charX, charY) == Ok(true))
  {
    CellInRange(i);
  }

  /** Bytes of `s` past the first 600 never show: the image of `s` is that of its
      first 600 bytes. */
  lemma PixelIgnoresTail(s: seq<byte>, font: map<int, Glyph>, i: int)
    requires 0 <= i < NumPixels && |s| > Cols * Rows
    ensures GetPixel(s, font, i) == GetPixel(s[..Cols * Rows], font, i)
  {
    CellInRange(i);
    assert s[..Cols * Rows][PixelCharIndex(i)] == s[PixelCharIndex(i)];
  }

  /** The image of the first `n` pixels, four bytes each. */
  function Render(s: seq<byte>, font: map<int, Glyph>, n: nat): (img: seq<byte>)
    requires n <= NumPixels
    ensures |img| == 4 * n
  {
    if n == 0 then [] else Render(s, font, n - 1) + GetPixel(s, font, n - 1).value
  }

  /** Pixel `j` of the image occupies bytes `4j .. 4j + 4`. */
  lemma {:induction false} RenderAt(s: seq<byte>, font: map<int, Glyph>, n: nat, j: nat)
    requires n <= NumPixels && j < n
    ensures Render(s, font, n)[4 * j..4 * j + 4] == GetPixel(s, font, j).value
    decreases n
  {
    var prev := Render(s, font, n - 1);
    var last := GetPixel(s, font, n - 1).value;
    assert Render(s, font, n) == prev + last;
    if j < n - 1 {
      RenderAt(s, font, n - 1, j);
    }
    SliceOfAppend(prev, last, 4 * j);
  }

  /** A four-byte slice of `a + b` lies in `a`, or is `b` when it starts at `|a|`
      and `b` has four bytes. */
  lemma SliceOfAppend(a: seq<byte>, b: seq<byte>, k: nat)
    requires k + 4 <= |a| || (k == |a| && |b| == 4)
    ensures (a + b)[k..k + 4] == if k + 4 <= |a| then a[k..k + 4] else b
  {
    if k == |a| && |b| == 4 {
      assert (a + b)[k..k + 4] == (a + b)[|a|..];
    }
  }

  /** `TUI(s)`: the loop that appends the bytes of every pixel in turn. */
  method TUI(s: seq<byte>, font: map<int, Glyph>) returns (img: seq<byte>)
    ensures img == Render(s, font, NumPixels)
    ensures |img| == 4 * Width * Height
  {
    img := [];
    var i := 0;
    while i < NumPixels
      invariant 0 <= i <= NumPixels
      invariant img == Render(s, font, i)
    {
      var p := GetPixel(s, font, i);
      img := img + p.value;
      i := i + 1;
    }
  }

  /** What a frame is: every pixel of it is opaque black or opaque white. */
  lemma TwoColours(s: seq<byte>, font: map<int, Glyph>, j: nat)
    requires j < NumPixels
    ensures var px := Render(s, font, NumPixels)[4 * j..4 * j + 4];
      px == Black || px == White
  {
    RenderAt(s, font, NumPixels, j);
  }

  /** `getCharIndex` as written (tui.go:44-54): column-major (`cols * col + row`)
      and bounded by `>` instead of `>=`. */
  function GetCharIndexAsWritten(pixelIndex: int): Result<int>
  {
    var x := GoMod(pixelIndex, Width);
    var y := GoDiv(pixelIndex, Width);
    var col := GoDiv(x, CharWidth);
    var row := GoDiv(y, CharHeight);
    var i := Cols * col + row;
    if i > Cols * Rows then Panic("i out of range") else Ok(i)
  }

  /** As written, the index disagrees with the cell `getPixel` reads, panics on
      pixels of the visible grid, and lets 600 (one past the last cell) through. */
  lemma GetCharIndexAsWrittenCounterexamples()
    ensures GetCharIndexAsWritten(8) == Ok(40) && PixelCharIndex(8) == 1
    ensures GetCharIndexAsWritten(128).Panic? && 0 <= 128 < NumPixels
    ensures GetCharIndexAsWritten(120) == Ok(Cols * Rows)
  {
  }

  /** `getCharIndex` with the grid order of `getPixel` and a `>=` bound. */
  function GetCharIndex(pixelIndex: int): (r: Result<int>)
    ensures 0 <= pixelIndex < NumPixels ==> r == Ok(PixelCharIndex(pixelIndex))
    ensures r.Ok? ==> r.value < Cols * Rows
  {
    var x := GoMod(pixelIndex, Width);
    var y := GoDiv(pixelIndex, Width);
    var col := GoDiv(x, CharWidth);
    var row := GoDiv(y, CharHeight);
    var i := row * Cols + col;
    if i >= Cols * Rows then Panic("i out of range") else Ok(i)
  }
}
