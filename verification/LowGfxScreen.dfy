/** The packed three-colour screen of include/zx81lowgfx.h: two pixels share one character code. The
    routines refine a plain grid of 32 by 48 colours. */
module LowGfxScreen {

  type Byte = v: int | 0 <= v < 256

  /** The low byte of an argument, which is all that the routines look at. */
  function Low(v: int): Byte { v % 256 }

  /** The display after its first line end: 24 text lines of 32 characters and a line end each, and one
      byte more, which cclg overwrites. */
  type Screen = s: seq<Byte> | |s| == 793 witness seq(793, _ => 0)

  /** The code table: entry 4 * lower + upper, with fillers where upper would be 3. */
  const CTAB: seq<Byte> := [128, 138, 131, 255, 137, 8, 9, 255, 3, 10, 0]

  /** What a store fetches: behind the table comes the first byte of the next instruction, srl a. */
  function TableAt(k: nat): Byte
    requires k <= 11
  {
    if k < 11 then CTAB[k] else 203
  }

  predicate Colour(c: int) { 0 <= c <= 2 }

  predicate InRange(x: int, y: int) { 0 <= x < 32 && 0 <= y < 48 }

  function Addr(x: int, y: int): (k: nat)
    requires InRange(x, y)
    ensures k < 792
  {
    y / 2 * 33 + x
  }

  /** The backward search of caddr from entry i: it stops at entry 0 without looking at it. */
  function Seek(v: Byte, i: nat): (k: nat)
    requires i <= 10
    ensures k <= i && (k > 0 ==> CTAB[k] == v)
  {
    if i == 0 || CTAB[i] == v then i else Seek(v, i - 1)
  }

  function Decoded(v: Byte): nat { Seek(v, 10) }

  function Pixel(s: Screen, x: int, y: int): int
    requires InRange(x, y)
  {
    if y % 2 == 1 then Decoded(s[Addr(x, y)]) / 4 else Decoded(s[Addr(x, y)]) % 4
  }

  /** One of the nine codes that stand for two pixels. */
  predicate IsCode(v: Byte) {
    v == 128 || v == 138 || v == 131 || v == 137 || v == 8 || v == 9 || v == 3 || v == 10 || v == 0
  }

  ghost predicate AllCodes(s: Screen) { forall x, y :: InRange(x, y) ==> IsCode(s[Addr(x, y)]) }

  /** The weaker condition under which plotting works on any text: the filler is not on the screen. */
  ghost predicate NoFiller(s: Screen) { forall x, y :: InRange(x, y) ==> s[Addr(x, y)] != 255 }

  lemma NoFillerAt(s: Screen, x: int, y: int)
    requires NoFiller(s)
    ensures InRange(x, y) ==> s[Addr(x, y)] != 255
  {
  }

  /** The nine codes and the pairs of colours correspond one to one, so the search inverts the table. */
  lemma DecodeInverts(upper: int, lower: int)
    requires Colour(upper) && Colour(lower)
    ensures var v := CTAB[4 * lower + upper];
            IsCode(v) && Decoded(v) == 4 * lower + upper && Decoded(v) % 4 == upper && Decoded(v) / 4 == lower
  {
    var k := 4 * lower + upper;
    assert k == 0 || k == 1 || k == 2 || k == 4 || k == 5 || k == 6 || k == 8 || k == 9 || k == 10;
    SeekFinds(k, 10);
  }

  lemma {:induction false} SeekFinds(k: nat, i: nat)
    requires k <= i <= 10 && k != 3 && k != 7
    ensures Seek(CTAB[k], i) == k
  {
    if k < i {
      assert CTAB[i] != CTAB[k];
      SeekFinds(k, i - 1);
    }
  }

  /** Any byte but the filler decodes to a pair of colours. */
  lemma DecodedIsPair(v: Byte)
    requires v != 255
    ensures Colour(Decoded(v) % 4) && Colour(Decoded(v) / 4)
    ensures IsCode(v) <==> CTAB[Decoded(v)] == v
  {
    var k := Decoded(v);
    assert k != 3 && k != 7;
    SeekMisses(v, 10);
  }

  lemma {:induction false} SeekMisses(v: Byte, i: nat)
    requires i <= 10
    ensures forall k :: Seek(v, i) < k <= i ==> CTAB[k] != v
  {
    if i > 0 && CTAB[i] != v { SeekMisses(v, i - 1); }
  }

  /** One pixel set: the cell's other half keeps its colour. */
  function Plotted(s: Screen, x: int, y: int, c: int): Screen
    requires Colour(c)
  {
    if !InRange(x, y) then s
    else
      var k := Decoded(s[Addr(x, y)]);
      s[Addr(x, y) := TableAt(if y % 2 == 1 then k % 4 + 4 * c else k / 4 * 4 + c)]
  }

  lemma AddrShared(x: int, y: int, x': int, y': int)
    requires InRange(x, y) && InRange(x', y')
    ensures Addr(x, y) == Addr(x', y') <==> x == x' && y / 2 == y' / 2
  {
  }

  /** Plotting is assignment on the grid of pixels. */
  lemma PlotIsAssignment(s: Screen, x: int, y: int, c: int, x': int, y': int)
    requires Colour(c) && InRange(x', y') && (InRange(x, y) ==> s[Addr(x, y)] != 255)
    ensures Pixel(Plotted(s, x, y, c), x', y') == if x == x' && y == y' then c else Pixel(s, x', y')
  {
    hide Decoded, Addr, Plotted;
    if InRange(x, y) {
      AddrShared(x, y, x', y');
      PlottedByte(s, x, y, c);
    } else {
      PlottedNowhere(s, x, y, c);
    }
  }

  lemma PlotKeepsCodes(s: Screen, x: int, y: int, c: int)
    requires Colour(c) && NoFiller(s)
    ensures NoFiller(Plotted(s, x, y, c)) && (AllCodes(s) ==> AllCodes(Plotted(s, x, y, c)))
  {
    hide Decoded, Addr, Plotted;
    if InRange(x, y) {
      PlottedByte(s, x, y, c);
      forall x', y' | InRange(x', y')
        ensures IsCode(Plotted(s, x, y, c)[Addr(x', y')]) || Plotted(s, x, y, c)[Addr(x', y')] == s[Addr(x', y')]
      {
      }
    } else {
      assert Plotted(s, x, y, c) == s by { PlottedNowhere(s, x, y, c); }
    }
  }

  lemma PlottedNowhere(s: Screen, x: int, y: int, c: int)
    requires Colour(c) && !InRange(x, y)
    ensures Plotted(s, x, y, c) == s
  {
  }

  /** The byte that a plot stores. */
  lemma PlottedByte(s: Screen, x: int, y: int, c: int)
    requires Colour(c) && InRange(x, y) && s[Addr(x, y)] != 255
    ensures var v := Plotted(s, x, y, c)[Addr(x, y)];
            && Plotted(s, x, y, c) == s[Addr(x, y) := v] && IsCode(v)
            && Decoded(v) % 4 == (if y % 2 == 1 then Decoded(s[Addr(x, y)]) % 4 else c)
            && Decoded(v) / 4 == (if y % 2 == 1 then c else Decoded(s[Addr(x, y)]) / 4)
  {
    hide Decoded, Addr;
    var k := Decoded(s[Addr(x, y)]);
    DecodedIsPair(s[Addr(x, y)]);
    if y % 2 == 1 { DecodeInverts(k % 4, c); } else { DecodeInverts(c, k / 4); }
  }

  lemma FillerDecoded()
    ensures Decoded(255) == 7
  {
    assert Seek(255, 10) == Seek(255, 9) == Seek(255, 8) == Seek(255, 7) == 7;
  }

  /** Plotting on the filler: it decodes to upper 3 and lower 1, and a lower half cannot be changed. */
  lemma PlotOnFiller(s: Screen, x: int, y: int, c: int)
    requires Colour(c) && InRange(x, y) && s[Addr(x, y)] == 255
    ensures Decoded(255) == 7
    ensures var v := Plotted(s, x, y, c)[Addr(x, y)];
            if y % 2 == 0 then Decoded(v) == 4 + c else if c == 2 then Decoded(v) == 0 else Decoded(v) == 7
  {
    hide Decoded, Addr;
    FillerDecoded();
    if y % 2 == 0 {
      DecodeInverts(c, 1);
    } else if c == 2 {
      CodeBehind();
    }
  }

  /** The byte behind the table is found nowhere in it. */
  lemma CodeBehind()
    ensures Decoded(203) == 0
  {
    assert Seek(203, 10) == Seek(203, 9) == Seek(203, 8) == Seek(203, 7);
    assert Seek(203, 7) == Seek(203, 6) == Seek(203, 5) == Seek(203, 4);
    assert Seek(203, 4) == Seek(203, 3) == Seek(203, 2) == Seek(203, 1) == Seek(203, 0);
  }

  /** Exactly when a plot is an assignment to the grid: unless it writes another colour than gray to
      the lower half of a cell that holds the filler. */
  lemma PlotAssignsIff(s: Screen, x: int, y: int, c: int)
    requires Colour(c)
    ensures (forall x', y' :: InRange(x', y') ==>
               Pixel(Plotted(s, x, y, c), x', y') == if x == x' && y == y' then c else Pixel(s, x', y'))
            <==> !(InRange(x, y) && s[Addr(x, y)] == 255 && y % 2 == 1 && c != 1)
  {
    if InRange(x, y) && s[Addr(x, y)] == 255 {
      PlotOnFiller(s, x, y, c);
      hide Decoded, Addr;
      forall x', y' | InRange(x', y')
        ensures Addr(x, y) == Addr(x', y') <==> x == x' && y / 2 == y' / 2
      {
        AddrShared(x, y, x', y');
      }
      if y % 2 == 1 && c != 1 {
        assert Pixel(Plotted(s, x, y, c), x, y) != c;
      }
    } else {
      hide Pixel, Plotted, Addr;
      forall x', y' | InRange(x', y')
        ensures Pixel(Plotted(s, x, y, c), x', y') == if x == x' && y == y' then c else Pixel(s, x', y')
      {
        PlotIsAssignment(s, x, y, c, x', y');
      }
    }
  }

  // ----- drawings

  datatype Plot = Plot(x: int, y: int, color: int)

  /** What the grid shows after some plots on a cleared screen: the last colour written there. */
  function LastColour(background: int, plots: seq<Plot>, x: int, y: int): int {
    if plots == [] then Low(background) % 3
    else
      var p := plots[|plots| - 1];
      if Low(p.x) == x && Low(p.y) == y then Low(p.color) % 3
      else LastColour(background, plots[..|plots| - 1], x, y)
  }

  /** The byte that fills a cleared screen. */
  function Background(color: int): Byte {
    if Low(color) % 3 == 0 then 128 else if Low(color) % 3 == 1 then 8 else 0
  }

  predicate Visible(k: int) { 0 <= k < 792 && k % 33 < 32 }

  function Cleared(s: Screen, color: int): Screen {
    seq(793, k requires 0 <= k < 793 => if k == 792 then 76 else if Visible(k) then Background(color) else s[k])
  }

  lemma ClearedCell(s: Screen, color: int, x: int, y: int)
    requires InRange(x, y)
    ensures Cleared(s, color)[Addr(x, y)] == Background(color)
  {
    assert Visible(Addr(x, y));
    hide Background;
  }

  lemma ClearedShows(s: Screen, color: int)
    ensures AllCodes(Cleared(s, color)) && NoFiller(Cleared(s, color))
    ensures forall x, y :: InRange(x, y) ==> Pixel(Cleared(s, color), x, y) == Low(color) % 3
  {
    var c := Low(color) % 3;
    DecodeInverts(c, c);
    hide Decoded, Cleared, Addr, Low;
    forall x, y | InRange(x, y)
      ensures Cleared(s, color)[Addr(x, y)] == Background(color) == CTAB[5 * c]
    {
      ClearedCell(s, color, x, y);
    }
  }

  /** The screen after clearing and then plotting. */
  function Drawn(s: Screen, background: int, plots: seq<Plot>): (d: Screen)
    ensures NoFiller(d) && AllCodes(d)
  {
    if plots == [] then
      ClearedShows(s, background);
      Cleared(s, background)
    else
      var before := Drawn(s, background, plots[..|plots| - 1]);
      var p := plots[|plots| - 1];
      PlotKeepsCodes(before, Low(p.x), Low(p.y), Low(p.color) % 3);
      Plotted(before, Low(p.x), Low(p.y), Low(p.color) % 3)
  }

  /** After cclg and any plots, every pixel in range shows the last colour written to it, or the
      background, modulo 3. */
  lemma {:induction false} DrawnShowsLast(s: Screen, background: int, plots: seq<Plot>, x: int, y: int)
    requires InRange(x, y)
    ensures Pixel(Drawn(s, background, plots), x, y) == LastColour(background, plots, x, y)
  {
    hide Pixel, Plotted;
    if plots == [] {
      ClearedShows(s, background);
    } else {
      var before := plots[..|plots| - 1];
      var p := plots[|plots| - 1];
      DrawnShowsLast(s, background, before, x, y);
      PlotIsAssignment(Drawn(s, background, before), Low(p.x), Low(p.y), Low(p.color) % 3, x, y);
    }
  }
}
