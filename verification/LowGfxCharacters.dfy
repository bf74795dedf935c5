/** What the bytes of the packed screen look like in the machine's character set: the two halves of a
    block character. Nothing here looks at the code table of include/zx81lowgfx.h. */
module LowGfxCharacters {
  import opened LowGfxScreen

  datatype Shade = Black | Gray | White

  datatype Face = Face(upper: Shade, lower: Shade)

  /** 0 is the blank, 3 has its upper half black, 8 is gray, 9 has its lower half gray and 10 its upper
      half. Codes from 128 on are their inverses. */
  predicate Block(v: Byte) {
    v == 0 || v == 3 || v == 8 || v == 9 || v == 10 || v == 128 || v == 131 || v == 136 || v == 137 || v == 138
  }

  function Inverse(s: Shade): Shade { if s == Black then White else if s == White then Black else Gray }

  function FaceOf(v: Byte): Face
    requires Block(v)
  {
    if v >= 128 then
      var f := FaceOf(v - 128);
      Face(Inverse(f.upper), Inverse(f.lower))
    else if v == 0 then Face(White, White)
    else if v == 3 then Face(Black, White)
    else if v == 8 then Face(Gray, Gray)
    else if v == 9 then Face(White, Gray)
    else Face(Gray, White)
  }

  /** The colours of the library's calls: 0 is black, 1 gray and 2 white. */
  function ShadeOf(c: int): Shade { if c == 0 then Black else if c == 1 then Gray else White }

  lemma TableFaces(k: nat)
    requires k == 0 || k == 1 || k == 2 || k == 4 || k == 5 || k == 6 || k == 8 || k == 9 || k == 10
    ensures Block(CTAB[k]) && FaceOf(CTAB[k]) == Face(ShadeOf(k % 4), ShadeOf(k / 4))
  {
  }

  lemma CodeFaces(v: Byte)
    requires IsCode(v)
    ensures Block(v) && FaceOf(v) == Face(ShadeOf(Decoded(v) % 4), ShadeOf(Decoded(v) / 4))
  {
    DecodedIsPair(v);
    var k := Decoded(v);
    PairIndex(k);
    TableFaces(k);
    hide Decoded, FaceOf;
  }

  lemma PairIndex(k: nat)
    requires Colour(k % 4) && Colour(k / 4)
    ensures k == 0 || k == 1 || k == 2 || k == 4 || k == 5 || k == 6 || k == 8 || k == 9 || k == 10
  {
  }

  /** A pixel of the grid is the shade of its half of the character that covers it. */
  lemma PixelIsShown(s: Screen, x: int, y: int)
    requires InRange(x, y) && IsCode(s[33 * (y / 2) + x])
    ensures var v := s[33 * (y / 2) + x];
            Block(v) && ShadeOf(Pixel(s, x, y)) == if y % 2 == 0 then FaceOf(v).upper else FaceOf(v).lower
  {
    CodeFaces(s[33 * (y / 2) + x]);
    hide Decoded, FaceOf;
  }

  /** A plot changes one character, and in it the half of the pixel only: that half takes the colour
      plotted, and the other keeps its shade. Over a character that is no code of the screen the other
      half turns black. */
  lemma PlotShows(s: Screen, x: int, y: int, c: int)
    requires InRange(x, y) && Colour(c) && s[33 * (y / 2) + x] != 255
    ensures var k := 33 * (y / 2) + x;
            var v, v' := s[k], Plotted(s, x, y, c)[k];
            && Plotted(s, x, y, c) == s[k := v'] && Block(v')
            && var other := if !IsCode(v) then Black else if y % 2 == 0 then FaceOf(v).lower else FaceOf(v).upper;
               FaceOf(v') == if y % 2 == 0 then Face(ShadeOf(c), other) else Face(other, ShadeOf(c))
  {
    var k := 33 * (y / 2) + x;
    PlottedByte(s, x, y, c);
    CodeFaces(Plotted(s, x, y, c)[k]);
    if IsCode(s[k]) { CodeFaces(s[k]); } else { NoCodeDecodes(s[k]); }
    hide Decoded, FaceOf, Plotted;
  }

  /** The same for a character that is one of the codes. */
  lemma PlotRepaints(s: Screen, x: int, y: int, c: int)
    requires Colour(c)
    ensures InRange(x, y) && IsCode(s[33 * (y / 2) + x]) ==>
              var v, v' := s[33 * (y / 2) + x], Plotted(s, x, y, c)[33 * (y / 2) + x];
              Block(v') && Block(v) && FaceOf(v') ==
              if y % 2 == 0 then Face(ShadeOf(c), FaceOf(v).lower) else Face(FaceOf(v).upper, ShadeOf(c))
  {
    hide FaceOf, Plotted, Block;
    if InRange(x, y) && IsCode(s[33 * (y / 2) + x]) {
      CodeFaces(s[33 * (y / 2) + x]);
      PlotShows(s, x, y, c);
    }
  }

  lemma NoCodeDecodes(v: Byte)
    requires !IsCode(v) && v != 255
    ensures Decoded(v) == 0
  {
    DecodedIsPair(v);
  }

  /** After clearing, every one of the 24 lines of 32 characters shows the colour in both halves, the line
      ends are as before, and the byte behind the display holds one more line end. */
  lemma ClearedLooks(s: Screen, color: int, r: int, x: int)
    requires 0 <= r < 24 && 0 <= x < 32
    ensures var v, shade := Cleared(s, color)[33 * r + x], ShadeOf(Low(color) % 3);
            Block(v) && FaceOf(v) == Face(shade, shade)
    ensures Cleared(s, color)[33 * r + 32] == s[33 * r + 32] && Cleared(s, color)[792] == 76
  {
    assert (33 * r + x) % 33 == x && (33 * r + 32) % 33 == 32;
    hide Low;
  }
}
