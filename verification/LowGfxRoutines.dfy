/** The Z80 routines of include/zx81lowgfx.h over the display bytes. Registers are locals; register
    arithmetic is modulo 256. */
module LowGfxRoutines {
  import opened LowGfxScreen
  import opened LowGfxCharacters

  /** The loop that subtracts 3 until the carry comes, and then adds 3 back. */
  method Mod3(a0: Byte) returns (a: Byte)
    ensures a == a0 % 3
  {
    a := a0;
    while true
      invariant a % 3 == a0 % 3
      decreases a
    {
      var carry := a < 3;
      a := Low(a - 3);
      if carry { break; }
    }
    a := Low(a + 3);
  }

  method CClg(mem: array<Byte>, color: int)
    requires mem.Length == 793
    modifies mem
    ensures mem[..] == Cleared(old(mem[..]), color)
  {
    var colour := Mod3(Low(color));
    var a: int := colour;
    if a != 0 {
      a := Low(a - 2);
      if a != 0 { a := 8; }
    } else {
      a := 128;
    }
    var hl := 0;
    var b := 24;
    while b > 0
      invariant 0 <= b <= 24 && hl == (24 - b) * 33
      invariant forall k :: hl < k < 793 ==> mem[k] == old(mem[k])
      invariant if b == 24 then mem[0] == old(mem[0]) else mem[hl] == 76
      invariant forall k :: 0 <= k < hl ==> mem[k] == if Visible(k) then a else old(mem[k])
    {
      mem[hl] := a;
      // ldir copies each byte of the line to the next
      var bc := 31;
      ghost var line := hl;
      while bc > 0
        invariant 0 <= bc <= 31 && hl == line + 31 - bc
        invariant forall k :: line <= k <= hl ==> mem[k] == a
        invariant forall k :: hl < k < 793 ==> mem[k] == old(mem[k])
        invariant forall k :: 0 <= k < line ==> mem[k] == if Visible(k) then a else old(mem[k])
      {
        mem[hl + 1] := mem[hl];
        hl, bc := hl + 1, bc - 1;
      }
      hl := hl + 2;
      mem[hl] := 76;
      b := b - 1;
      assert forall k :: line <= k < hl ==> (Visible(k) <==> k < line + 32);
    }
  }

  /** caddr: the address of the character under (c,a), its decoded code and the parity of the row. */
  method CAddr(mem: array<Byte>, c: Byte, a0: Byte) returns (hl: nat, b: nat, carry: bool)
    requires mem.Length == 793 && InRange(c, a0)
    ensures hl == Addr(c, a0) && b == Decoded(mem[hl]) && carry == (a0 % 2 == 1)
    ensures hl == 33 * (a0 / 2) + c
  {
    carry := a0 % 2 == 1;
    var a := a0 / 2;
    var rows := a;
    hl := 0;
    if a != 0 {
      while rows > 0
        invariant 0 <= rows <= a && hl == (a - rows) * 33
      {
        hl, rows := hl + 33, rows - 1;
      }
    }
    hl := hl + c;
    var v := mem[hl];
    b := 10;
    while v != CTAB[b]
      invariant 0 < b <= 10 && Decoded(v) == Seek(v, b)
      decreases b
    {
      b := b - 1;
      if b == 0 { break; }
    }
  }

  method CPlotPixel(mem: array<Byte>, h: Byte, l: Byte, e: Byte)
    requires mem.Length == 793 && Colour(e)
    modifies mem
    ensures mem[..] == Plotted(old(mem[..]), h, l, e)
    // the character shows the colour in one half, and in the other what it showed
    ensures h < 32 && l < 48 && IsCode(old(mem[33 * (l / 2) + h])) ==>
              var v, v' := old(mem[33 * (l / 2) + h]), mem[33 * (l / 2) + h];
              Block(v') && Block(v) && FaceOf(v') ==
              if l % 2 == 0 then Face(ShadeOf(e), FaceOf(v).lower) else Face(FaceOf(v).upper, ShadeOf(e))
  {
    hide FaceOf, IsCode, Block;
    PlotRepaints(mem[..], h, l, e);
    if h >= 32 { return; }
    if l >= 48 { return; }
    var hl, a, carry := CAddr(mem, h, l);
    if carry {
      a := a % 4 + 4 * e;
    } else {
      a := a / 4 * 4 + e;
    }
    mem[hl] := TableAt(a);
  }

  method CPlot(mem: array<Byte>, x: int, y: int, color: int)
    requires mem.Length == 793
    modifies mem
    ensures mem[..] == Plotted(old(mem[..]), Low(x), Low(y), Low(color) % 3)
  {
    var e := Mod3(Low(color));
    CPlotPixel(mem, Low(x), Low(y), e);
  }

  /** Out of range the register pair HL comes back with the two low bytes it was loaded with. */
  method CPoint(mem: array<Byte>, x: int, y: int) returns (hl: int)
    requires mem.Length == 793
    ensures hl == if InRange(Low(x), Low(y)) then Pixel(mem[..], Low(x), Low(y)) else 256 * Low(x) + Low(y)
  {
    var h: int, l: int := Low(x), Low(y);
    if h >= 32 { return 256 * h + l; }
    if l >= 48 { return 256 * h + l; }
    var _, a, carry := CAddr(mem, h, l);
    hl := if carry then a / 4 else a % 4;
  }

  /** A program that clears the screen and plots. */
  method Draw(mem: array<Byte>, background: int, plots: seq<Plot>)
    requires mem.Length == 793
    modifies mem
    ensures mem[..] == Drawn(old(mem[..]), background, plots)
  {
    ghost var s: Screen := mem[..];
    hide Plotted, Cleared, AllCodes;
    CClg(mem, background);
    assert plots[..0] == [];
    for i := 0 to |plots|
      invariant mem[..] == Drawn(s, background, plots[..i])
    {
      DrawnStep(s, background, plots, i);
      var p := plots[i];
      CPlot(mem, p.x, p.y, p.color);
    }
    assert plots[..|plots|] == plots;
  }

  lemma DrawnStep(s: Screen, background: int, plots: seq<Plot>, i: nat)
    requires i < |plots|
    ensures var d, p := Drawn(s, background, plots[..i]), plots[i];
            Drawn(s, background, plots[..i + 1]) == Plotted(d, Low(p.x), Low(p.y), Low(p.color) % 3)
  {
    hide Plotted, Addr;
    assert plots[..i + 1][..i] == plots[..i];
  }

  /** And then asks for a pixel: it gets the last colour plotted there. */
  method DrawAndLook(mem: array<Byte>, background: int, plots: seq<Plot>, x: int, y: int) returns (c: int)
    requires mem.Length == 793 && InRange(x, y)
    modifies mem
    ensures c == LastColour(background, plots, x, y)
  {
    LowSmall(x);
    LowSmall(y);
    hide Pixel, Drawn, Low, AllCodes, NoFiller, LastColour;
    DrawnShowsLast(mem[..], background, plots, x, y);
    Draw(mem, background, plots);
    c := CPoint(mem, x, y);
  }

  lemma LowSmall(v: int)
    requires 0 <= v < 256
    ensures Low(v) == v
  {
  }
}
