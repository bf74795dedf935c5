/** The sprite walker of include/zx81lowgfx.h: cputsprite shifts a bit stream onto the packed screen. */
module LowGfxSprite {
  import opened LowGfxScreen
  import opened LowGfxRoutines

  /** A counter byte that is decremented, or compared after an increment, counts 0 as 256. */
  function Full(v: Byte): (n: nat)
    ensures 1 <= n <= 256
  {
    if v == 0 then 256 else v
  }

  /** Bytes in one row of a sprite. */
  function RowBytes(width: nat): nat { (width + 7) / 8 }

  predicate WellFormed(sprite: seq<Byte>) {
    |sprite| >= 2 && |sprite| >= 2 + Full(sprite[1]) * RowBytes(Full(sprite[0]))
  }

  /** The byte after the sprite is loaded once, but never shifted out. */
  function Peek(sprite: seq<Byte>, k: nat): Byte { if k < |sprite| then sprite[k] else 0 }

  function Power(k: nat): nat
    requires k <= 7
  {
    [1, 2, 4, 8, 16, 32, 64, 128][k]
  }

  /** Bit k of a byte, counted from the left. */
  predicate LeftBit(v: Byte, k: nat)
    requires k <= 7
  {
    v % (2 * Power(7 - k)) >= Power(7 - k)
  }

  /** The pixel of the sprite in column i and row j. */
  predicate SpriteBit(sprite: seq<Byte>, i: nat, j: nat)
    requires |sprite| >= 2
  {
    LeftBit(Peek(sprite, 2 + j * RowBytes(Full(sprite[0])) + i / 8), i % 8)
  }

  /** A byte after k shifts to the left. */
  function Shifted(v: Byte, k: nat): Byte {
    if k == 0 then v else Low(2 * Shifted(v, k - 1))
  }

  lemma AtLeastOnce(m: nat, d: int)
    requires m > 0 && d >= 1
    ensures m * d >= m
  {
    assert m * d == m + m * (d - 1);
    assert m * (d - 1) >= 0;
  }

  lemma ModUnique(v: int, m: nat, q: int, r: int)
    requires m > 0 && v == m * q + r && 0 <= r < m
    ensures v % m == r && v / m == q
  {
    var q', r' := v / m, v % m;
    assert v == m * q' + r';
    if q > q' {
      AtLeastOnce(m, q - q');
    } else if q < q' {
      AtLeastOnce(m, q' - q);
    }
  }

  /** Halving the modulus drops the top bit of the remainder. */
  lemma HalfModulus(v: nat, m: nat)
    requires m > 0
    ensures var r := v % (2 * m);
            v % m == if r < m then r else r - m
  {
    var q, r := v / (2 * m), v % (2 * m);
    assert v == 2 * m * q + r;
    if r < m {
      assert v == m * (2 * q) + r;
      ModUnique(v, m, 2 * q, r);
    } else {
      assert v == m * (2 * q + 1) + (r - m);
      ModUnique(v, m, 2 * q + 1, r - m);
    }
  }

  /** The carry of the next shift is the bit that is next from the left. */
  lemma {:induction false} CarryIsBit(v: Byte, k: nat)
    requires k <= 7
    ensures Shifted(v, k) == v % (2 * Power(7 - k)) * Power(k)
    ensures Shifted(v, k) >= 128 <==> LeftBit(v, k)
  {
    if k == 0 {
      ModUnique(v, 256, 0, v);
    } else {
      CarryIsBit(v, k - 1);
      HalfModulus(v, 2 * Power(7 - k));
      OneShift(v % (2 * Power(8 - k)), v % (2 * Power(7 - k)), k);
    }
    Compare(v % (2 * Power(7 - k)), k);
  }

  /** A shift multiplies the remainder by two and drops what leaves the byte. */
  lemma OneShift(r: nat, r': nat, k: nat)
    requires 1 <= k <= 7 && r < 2 * Power(8 - k) && Power(8 - k) == 2 * Power(7 - k)
    requires r' == if r < 2 * Power(7 - k) then r else r - 2 * Power(7 - k)
    ensures (2 * (r * Power(k - 1))) % 256 == r' * Power(k)
  {
  }

  lemma Compare(r: nat, k: nat)
    requires k <= 7 && r < 2 * Power(7 - k)
    ensures r * Power(k) >= 128 <==> r >= Power(7 - k)
  {
  }

  /** Bit k of a byte from the left, as a binary digit. */
  lemma LeftBitDigit(v: Byte, k: nat)
    requires k <= 7
    ensures LeftBit(v, k) <==> v / [128, 64, 32, 16, 8, 4, 2, 1][k] % 2 == 1
  {
    HalfDigit(v, Power(7 - k));
  }

  lemma HalfDigit(v: nat, m: nat)
    requires m > 0
    ensures v % (2 * m) >= m <==> v / m % 2 == 1
  {
    Quotient(v, m);
    EvenOrOdd(v / (2 * m));
  }

  lemma Quotient(v: nat, m: nat)
    requires m > 0
    ensures v / m == 2 * (v / (2 * m)) + if v % (2 * m) < m then 0 else 1
  {
    var q, r := v / (2 * m), v % (2 * m);
    assert v == 2 * m * q + r;
    if r < m {
      assert v == m * (2 * q) + r;
      ModUnique(v, m, 2 * q, r);
    } else {
      assert v == m * (2 * q + 1) + (r - m);
      ModUnique(v, m, 2 * q + 1, r - m);
    }
  }

  lemma EvenOrOdd(q: nat)
    ensures 2 * q % 2 == 0 && (2 * q + 1) % 2 == 1
  {
  }

  /** Where the pixel in column i and row j lies: after two bytes for width and height each row takes as
      many bytes as its columns need, eight to a byte, the leftmost highest. */
  lemma PixelInBytes(sprite: seq<Byte>, i: nat, j: nat)
    requires |sprite| >= 2
    ensures var columns: int := if sprite[0] == 0 then 256 else sprite[0] as int;
            var k := 2 + j * ((columns + 7) / 8) + i / 8;
            k >= 0 && (k < |sprite| ==>
              (SpriteBit(sprite, i, j) <==> sprite[k] / [128, 64, 32, 16, 8, 4, 2, 1][i % 8] % 2 == 1))
  {
    var k := 2 + j * RowBytes(Full(sprite[0])) + i / 8;
    LeftBitDigit(Peek(sprite, k), i % 8);
    hide LeftBit;
  }

  // ----- the walk

  /** Pixel (px,py) has been set once j whole rows and i columns of the next are done. A sprite's
      coordinates wrap modulo 256, so (px,py) belongs to one column and one row of it at most. */
  predicate Covered(sprite: seq<Byte>, x: Byte, y: Byte, j: nat, i: nat, px: int, py: int)
    requires |sprite| >= 2
  {
    var col, row := Low(px - x), Low(py - y);
    && col < Full(sprite[0]) && row < Full(sprite[1])
    && (row < j || (row == j && col < i))
    && SpriteBit(sprite, col, row)
  }

  /** The screen s' is s with the pixels done so far set to c. */
  ghost predicate Walked(s: Screen, s': Screen, sprite: seq<Byte>, x: Byte, y: Byte, c: int, j: nat, i: nat)
    requires |sprite| >= 2
  {
    && NoFiller(s') && (AllCodes(s) ==> AllCodes(s'))
    && forall px, py :: InRange(px, py) ==>
         Pixel(s', px, py) == if Covered(sprite, x, y, j, i, px, py) then c else Pixel(s, px, py)
  }

  /** The screen after j whole rows and i columns of the next, bit by bit. */
  function Walk(s: Screen, sprite: seq<Byte>, x: Byte, y: Byte, c: int, j: nat, i: nat): Screen
    requires |sprite| >= 2 && Colour(c)
    decreases j, i
  {
    if i > 0 then
      var before := Walk(s, sprite, x, y, c, j, i - 1);
      if SpriteBit(sprite, i - 1, j) then Plotted(before, Low(x + i - 1), Low(y + j), c) else before
    else if j > 0 then Walk(s, sprite, x, y, c, j - 1, Full(sprite[0]))
    else s
  }

  /** The reference meaning of cputsprite: exactly the pixels in range under a set bit of the sprite
      change, to the colour modulo 3. */
  ghost predicate SpriteDrawn(s: Screen, s': Screen, sprite: seq<Byte>, x: Byte, y: Byte, c: int)
    requires |sprite| >= 2
  {
    forall px, py :: InRange(px, py) ==>
      var col, row := Low(px - x), Low(py - y);
      Pixel(s', px, py) ==
        (if col < Full(sprite[0]) && row < Full(sprite[1]) && SpriteBit(sprite, col, row) then c else Pixel(s, px, py))
  }

  lemma OneColumn(px: int, x: Byte, i: nat)
    requires 0 <= px < 256 && i < 256
    ensures Low(px - x) == i <==> px == Low(x + i)
  {
  }

  /** Column i of row j: a plot if its bit is set, else nothing. */
  lemma WalkStep(s: Screen, s': Screen, sprite: seq<Byte>, x: Byte, y: Byte, c: int, j: nat, i: nat)
    requires |sprite| >= 2 && Colour(c) && i < Full(sprite[0]) && j < Full(sprite[1])
    requires Walked(s, s', sprite, x, y, c, j, i)
    ensures var h, l := Low(x + i), Low(y + j);
            Walked(s, if SpriteBit(sprite, i, j) then Plotted(s', h, l, c) else s', sprite, x, y, c, j, i + 1)
  {
    hide SpriteBit, Pixel, Low, Plotted, AllCodes, NoFiller, Addr;
    var h, l := Low(x + i), Low(y + j);
    NoFillerAt(s', h, l);
    PlotKeepsCodes(s', h, l, c);
    forall px, py | InRange(px, py)
      ensures Covered(sprite, x, y, j, i + 1, px, py) <==>
              Covered(sprite, x, y, j, i, px, py) || (SpriteBit(sprite, i, j) && px == h && py == l)
      ensures Pixel(Plotted(s', h, l, c), px, py) == if px == h && py == l then c else Pixel(s', px, py)
    {
      OneColumn(px, x, i);
      OneColumn(py, y, j);
      PlotIsAssignment(s', h, l, c, px, py);
    }
  }

  /** The end of a row is the start of the next. */
  lemma RowDone(s: Screen, s': Screen, sprite: seq<Byte>, x: Byte, y: Byte, c: int, j: nat)
    requires |sprite| >= 2 && Walked(s, s', sprite, x, y, c, j, Full(sprite[0]))
    ensures Walked(s, s', sprite, x, y, c, j + 1, 0)
  {
    hide SpriteBit, Pixel, Low, AllCodes, NoFiller;
    forall px, py
      ensures Covered(sprite, x, y, j + 1, 0, px, py) <==> Covered(sprite, x, y, j, Full(sprite[0]), px, py)
    {
    }
  }

  lemma WalkStarts(s: Screen, sprite: seq<Byte>, x: Byte, y: Byte, c: int)
    requires |sprite| >= 2 && NoFiller(s)
    ensures Walked(s, s, sprite, x, y, c, 0, 0)
  {
    hide SpriteBit, Pixel, AllCodes, NoFiller;
  }

  lemma WalkEnds(s: Screen, s': Screen, sprite: seq<Byte>, x: Byte, y: Byte, c: int)
    requires |sprite| >= 2 && Walked(s, s', sprite, x, y, c, Full(sprite[1]), 0)
    ensures SpriteDrawn(s, s', sprite, x, y, c)
  {
    hide SpriteBit, Pixel, AllCodes, NoFiller, Low;
  }

  lemma {:induction false} WalkIsWalked(s: Screen, sprite: seq<Byte>, x: Byte, y: Byte, c: int, j: nat, i: nat)
    requires |sprite| >= 2 && Colour(c) && NoFiller(s)
    requires i <= Full(sprite[0]) && (if i == 0 then j <= Full(sprite[1]) else j < Full(sprite[1]))
    ensures Walked(s, Walk(s, sprite, x, y, c, j, i), sprite, x, y, c, j, i)
    decreases j, i
  {
    hide Walked, SpriteBit, Plotted, NoFiller, Low;
    if i > 0 {
      WalkIsWalked(s, sprite, x, y, c, j, i - 1);
      WalkStep(s, Walk(s, sprite, x, y, c, j, i - 1), sprite, x, y, c, j, i - 1);
      assert x + (i - 1) == x + i - 1;
    } else if j > 0 {
      WalkIsWalked(s, sprite, x, y, c, j - 1, Full(sprite[0]));
      RowDone(s, Walk(s, sprite, x, y, c, j, 0), sprite, x, y, c, j - 1);
    } else {
      WalkStarts(s, sprite, x, y, c);
    }
  }

  /** A screen without fillers shows the sprite, and still holds no filler. */
  ghost predicate CleanlyDrawn(s: Screen, s': Screen, sprite: seq<Byte>, x: Byte, y: Byte, c: int)
    requires |sprite| >= 2
  {
    NoFiller(s) ==> SpriteDrawn(s, s', sprite, x, y, c) && NoFiller(s') && (AllCodes(s) ==> AllCodes(s'))
  }

  /** The whole walk draws the sprite. */
  lemma WalkDraws(s: Screen, sprite: seq<Byte>, x: Byte, y: Byte, c: int)
    requires |sprite| >= 2 && Colour(c)
    ensures CleanlyDrawn(s, Walk(s, sprite, x, y, c, Full(sprite[1]), 0), sprite, x, y, c)
  {
    hide Walk, Walked, SpriteDrawn, NoFiller, AllCodes;
    var s' := Walk(s, sprite, x, y, c, Full(sprite[1]), 0);
    if NoFiller(s) {
      WalkIsWalked(s, sprite, x, y, c, Full(sprite[1]), 0);
      WalkEnds(s, s', sprite, x, y, c);
      WalkKeeps(s, s', sprite, x, y, c, Full(sprite[1]), 0);
    }
  }

  /** One row, from oloopo to noblocko. ix is the offset of the row's first byte, as read through
      (ix+2); on return it has moved past the row. */
  method PutRow(mem: array<Byte>, sprite: seq<Byte>, ghost s: Screen, h: Byte, l: Byte, e: Byte,
                ghost y: Byte, ghost j: nat, ix0: nat)
    returns (ix: nat)
    requires mem.Length == 793 && |sprite| >= 2 && Colour(e) && l == Low(y + j)
    requires ix0 == j * RowBytes(Full(sprite[0]))
    requires mem[..] == Walk(s, sprite, h, y, e, j, 0)
    modifies mem
    ensures mem[..] == Walk(s, sprite, h, y, e, j + 1, 0)
    ensures ix == ix0 + RowBytes(Full(sprite[0]))
  {
    hide SpriteBit, Plotted, LeftBit, RowBytes, Low, Walk;
    var a := sprite[0];
    ghost var w := Full(a);
    ghost var i := 0;
    ix := ix0;
    var b: int := 0;
    var c: int := Peek(sprite, ix + 2);
    while true
      invariant 0 <= i < w && b == i && ix == ix0 + i / 8
      invariant c == Shifted(Peek(sprite, ix + 2), i % 8)
      invariant mem[..] == Walk(s, sprite, h, y, e, j, i)
      decreases w - i
    {
      CarryIsBit(Peek(sprite, ix + 2), i % 8);
      BitAt(sprite, i, j, ix);
      OneMoreColumn(s, sprite, h, y, e, j, i);
      // sla c
      var carry := c >= 128;
      c := Low(2 * c);
      if carry {
        CPlotPixel(mem, Low(h + b), l, e);
      }
      // inc b, cp b
      ColumnCounter(a, i);
      b := Low(b + 1);
      i := i + 1;
      if a == b {
        ix := ix + 1;
        break;
      }
      if b != 0 && b % 8 == 0 {
        ix := ix + 1;
        c := Peek(sprite, ix + 2);
      }
    }
    OneMoreRow(s, sprite, h, y, e, j);
  }

  lemma OneMoreColumn(s: Screen, sprite: seq<Byte>, x: Byte, y: Byte, c: int, j: nat, i: nat)
    requires |sprite| >= 2 && Colour(c)
    ensures var before := Walk(s, sprite, x, y, c, j, i);
            Walk(s, sprite, x, y, c, j, i + 1)
            == if SpriteBit(sprite, i, j) then Plotted(before, Low(x + i), Low(y + j), c) else before
  {
    hide SpriteBit, Plotted, Low;
    assert x + (i + 1) - 1 == x + i;
  }

  lemma OneMoreRow(s: Screen, sprite: seq<Byte>, x: Byte, y: Byte, c: int, j: nat)
    requires |sprite| >= 2 && Colour(c)
    ensures Walk(s, sprite, x, y, c, j + 1, 0) == Walk(s, sprite, x, y, c, j, Full(sprite[0]))
    ensures Walk(s, sprite, x, y, c, 0, 0) == s
  {
  }

  lemma ColumnCounter(a: Byte, i: nat)
    requires i < Full(a)
    ensures Low(i + 1) == a <==> i + 1 == Full(a)
    ensures i + 1 == Full(a) ==> i / 8 + 1 == RowBytes(Full(a))
    ensures i + 1 < Full(a) ==> Low(i + 1) == i + 1
    ensures if (i + 1) % 8 == 0 then (i + 1) / 8 == i / 8 + 1 else (i + 1) / 8 == i / 8 && (i + 1) % 8 == i % 8 + 1
  {
  }

  lemma BitAt(sprite: seq<Byte>, i: nat, j: nat, ix: nat)
    requires |sprite| >= 2 && ix == j * RowBytes(Full(sprite[0])) + i / 8
    ensures SpriteBit(sprite, i, j) == LeftBit(Peek(sprite, ix + 2), i % 8)
  {
  }

  /** The rows, from noloopo on: b rows are left, 0 for 256; l is the line of the next. */
  method Rows(mem: array<Byte>, sprite: seq<Byte>, h: Byte, y: Byte, colr: int) returns (used: nat)
    requires mem.Length == 793 && |sprite| >= 2 && Colour(colr)
    modifies mem
    ensures mem[..] == Walk(old(mem[..]), sprite, h, y, colr, Full(sprite[1]), 0)
    ensures used == Full(sprite[1]) * RowBytes(Full(sprite[0]))
  {
    hide Walk, RowBytes, Low;
    ghost var s: Screen := mem[..];
    ghost var rows, bytes := Full(sprite[1]), RowBytes(Full(sprite[0]));
    ghost var j := 0;
    var b: int, l: int := sprite[1], y;
    used := 0;
    OneMoreRow(s, sprite, h, y, colr, 0);
    RowCounterStart(sprite[1], y);
    while true
      invariant 0 <= j < rows && b == Low(rows - j) && l == Low(y + j)
      invariant used == j * bytes
      invariant mem[..] == Walk(s, sprite, h, y, colr, j, 0)
      decreases rows - j
    {
      used := PutRow(mem, sprite, s, h, l, colr, y, j, used);
      NextRow(j, bytes);
      LineCounter(y, j);
      RowCounter(rows, j);
      l := Low(l + 1);
      // djnz
      b := Low(b - 1);
      j := j + 1;
      if b == 0 { break; }
    }
  }

  /** The whole walk; used is the number of bytes of image data that it moved past. */
  method CPutSprite(mem: array<Byte>, color: int, x: int, y: int, sprite: seq<Byte>) returns (used: nat)
    requires mem.Length == 793 && WellFormed(sprite)
    modifies mem
    ensures mem[..] == Walk(old(mem[..]), sprite, Low(x), Low(y), Low(color) % 3, Full(sprite[1]), 0)
    ensures CleanlyDrawn(old(mem[..]), mem[..], sprite, Low(x), Low(y), Low(color) % 3)
    ensures used == Full(sprite[1]) * RowBytes(Full(sprite[0])) && used + 2 <= |sprite|
    ensures var rows: int := if sprite[1] == 0 then 256 else sprite[1] as int;
            var columns: int := if sprite[0] == 0 then 256 else sprite[0] as int;
            used == rows * ((columns + 7) / 8)
  {
    assert RowBytes(Full(sprite[0])) == (Full(sprite[0]) + 7) / 8;
    hide Walk, RowBytes, CleanlyDrawn;
    WalkDraws(mem[..], sprite, Low(x), Low(y), Low(color) % 3);
    var colr := Mod3(Low(color));
    used := Rows(mem, sprite, Low(x), Low(y), colr);
  }

  lemma NextRow(j: nat, bytes: nat)
    ensures (j + 1) * bytes == j * bytes + bytes
  {
  }

  lemma RowCounterStart(b: Byte, y: Byte)
    ensures Low(Full(b)) == b && Low(y + 0) == y
  {
  }

  lemma LineCounter(y: Byte, j: nat)
    ensures Low(Low(y + j) + 1) == Low(y + (j + 1))
  {
    var q := (y + j) / 256;
    if Low(y + j) == 255 {
      ModUnique(y + (j + 1), 256, q + 1, 0);
    } else {
      ModUnique(y + (j + 1), 256, q, Low(y + j) + 1);
    }
  }

  lemma RowCounter(rows: nat, j: nat)
    requires rows <= 256 && j < rows
    ensures Low(Low(rows - j) - 1) == Low(rows - (j + 1))
    ensures Low(rows - (j + 1)) == 0 <==> j + 1 == rows
  {
    var left := rows - j;
    ModUnique(left - 1, 256, 0, left - 1);
    if left == 256 {
      ModUnique(left, 256, 1, 0);
      ModUnique(-1, 256, -1, 255);
    } else {
      ModUnique(left, 256, 0, left);
    }
  }

  lemma WalkKeeps(s: Screen, s': Screen, sprite: seq<Byte>, x: Byte, y: Byte, c: int, j: nat, i: nat)
    requires |sprite| >= 2 && Walked(s, s', sprite, x, y, c, j, i)
    ensures NoFiller(s') && (AllCodes(s) ==> AllCodes(s'))
  {
  }
}
