/** The 25 levels that ship with examples/dstar.h: whatever keys are pressed, no piece ever leaves the
    board, and a level is left by clearing it only when no bubble is left. */
module DStarShipped {
  import opened DStarLevel
  import opened DStarSlide
  import opened DStarGame
  import opened DStarRun
  import opened DStarPlan
  import opened DStarSealed
  import opened DStarLanes

  function Level1(): (p: Masked)
    ensures Separated(p)
  {
    Walled(17, 30,
      Row(0x55, 0x55, 0x55, 0x55), Row(0x45, 0x00, 0x00, 0x91), Row(0x40, 0x00, 0x02, 0x15),
      Row(0x40, 0x00, 0x58, 0x01), Row(0x40, 0x52, 0x00, 0x05), Row(0x52, 0x08, 0x00, 0x81),
      Row(0x48, 0x00, 0x25, 0x21), Row(0x40, 0x05, 0x80, 0x09), Row(0x55, 0x55, 0x55, 0x55))
  }

  /** The second level, and the lanes of its ball. */
  function Level2(): Laned {
    Laned(Plan(30, 86, [
      Row(0x10, 0x44, 0x40, 0x45), Row(0x40, 0x80, 0x00, 0x01), Row(0x01, 0x81, 0x80, 0x80),
      Row(0x44, 0x80, 0x08, 0x11), Row(0x00, 0x04, 0x08, 0x04), Row(0x40, 0x11, 0x08, 0x01),
      Row(0x01, 0x04, 0x40, 0x69), Row(0x40, 0x00, 0x00, 0x04), Row(0x10, 0x40, 0x00, 0x10)
    ]), [
      NOLANE, Row(0x35, 0xD5, 0xD5, 0xDC), Row(0x20, 0x80, 0x80, 0x88),
      Row(0x23, 0xD7, 0xD5, 0xCC), Row(0x22, 0x83, 0xD5, 0xF0), Row(0x37, 0xC0, 0xD5, 0xFC),
      Row(0x20, 0x80, 0x00, 0x3C), Row(0x35, 0xD5, 0x55, 0x70), NOLANE
    ])
  }

  lemma Level2Row0()
    ensures RowOk(Level2(), 0)
  {
  }

  lemma Level2Row1()
    ensures RowOk(Level2(), 1)
  {
  }

  lemma Level2Row2()
    ensures RowOk(Level2(), 2)
  {
  }

  lemma Level2Row3()
    ensures RowOk(Level2(), 3)
  {
  }

  lemma Level2Row4()
    ensures RowOk(Level2(), 4)
  {
  }

  lemma Level2Row5()
    ensures RowOk(Level2(), 5)
  {
  }

  lemma Level2Row6()
    ensures RowOk(Level2(), 6)
  {
  }

  lemma Level2Row7()
    ensures RowOk(Level2(), 7)
  {
  }

  function Level3(): (p: Masked)
    ensures Separated(p)
  {
    Walled(30, 46,
      Row(0x55, 0x55, 0x55, 0x55), Row(0x40, 0x00, 0x00, 0x91), Row(0x40, 0x50, 0x00, 0x51),
      Row(0x40, 0x60, 0x02, 0x01), Row(0x48, 0x00, 0x94, 0x09), Row(0x46, 0x08, 0x24, 0x25),
      Row(0x45, 0x86, 0x08, 0x95), Row(0x60, 0x05, 0x80, 0x01), Row(0x55, 0x55, 0x55, 0x55))
  }

  function Level4(): (p: Masked)
    ensures Separated(p)
  {
    Walled(125, 30,
      Row(0x55, 0x55, 0x55, 0x55), Row(0x40, 0x00, 0x00, 0x11), Row(0x40, 0x04, 0x00, 0x01),
      Row(0x59, 0x89, 0x99, 0x99), Row(0x44, 0x62, 0x44, 0x45), Row(0x59, 0x98, 0x99, 0x99),
      Row(0x40, 0x04, 0x00, 0x01), Row(0x40, 0x40, 0x00, 0x41), Row(0x55, 0x55, 0x55, 0x55))
  }

  function Level5(): (p: Masked)
    ensures Separated(p)
  {
    Walled(17, 110,
      Row(0x15, 0x55, 0x55, 0x54), Row(0x40, 0x40, 0x41, 0x01), Row(0x41, 0x84, 0x82, 0x11),
      Row(0x50, 0x00, 0x41, 0x01), Row(0x61, 0x90, 0x00, 0x05), Row(0x50, 0x01, 0x21, 0x01),
      Row(0x64, 0x11, 0x10, 0x11), Row(0x40, 0x40, 0x24, 0x19), Row(0x15, 0x55, 0x55, 0x54))
  }

  function Level6(): (p: Masked)
    ensures Separated(p)
  {
    Walled(65, 113,
      Row(0x00, 0x55, 0x55, 0x55), Row(0x01, 0x02, 0x01, 0x89), Row(0x04, 0x02, 0x00, 0x45),
      Row(0x10, 0x02, 0x00, 0x01), Row(0x40, 0x02, 0x00, 0x01), Row(0x50, 0x02, 0x04, 0x05),
      Row(0x40, 0x02, 0x00, 0x41), Row(0x41, 0x02, 0x05, 0x81), Row(0x55, 0x55, 0x55, 0x55),
      x1 := Row(0x54, 0x00, 0x00, 0x00), x2 := Row(0x50, 0x00, 0x00, 0x00), x3 := Row(0x40, 0x00, 0x00, 0x00))
  }

  function Level7(): (p: Masked)
    ensures Separated(p)
  {
    Walled(115, 122,
      Row(0x55, 0x55, 0x55, 0x55), Row(0x40, 0x00, 0x00, 0x01), Row(0x14, 0x54, 0x18, 0x59),
      Row(0x18, 0x18, 0x44, 0x44), Row(0x04, 0x10, 0x54, 0x50), Row(0x14, 0x10, 0x64, 0x64),
      Row(0x40, 0x00, 0x00, 0x01), Row(0x40, 0x60, 0x00, 0x19), Row(0x55, 0x55, 0x55, 0x55))
  }

  function Level8(): (p: Masked)
    ensures Separated(p)
  {
    Walled(108, 98,
      Row(0x55, 0x55, 0x55, 0x54), Row(0x42, 0x50, 0x00, 0x05), Row(0x41, 0x81, 0x48, 0x01),
      Row(0x42, 0x51, 0x18, 0x01), Row(0x50, 0x01, 0x41, 0x91), Row(0x51, 0x00, 0x02, 0x61),
      Row(0x62, 0x40, 0x81, 0x11), Row(0x50, 0x00, 0x00, 0x01), Row(0x15, 0x55, 0x55, 0x55))
  }

  function Level9(): (p: Masked)
    ensures Separated(p)
  {
    Walled(30, 72,
      Row(0x04, 0x55, 0x55, 0x54), Row(0x19, 0x80, 0x01, 0x01), Row(0x62, 0x40, 0x20, 0x04),
      Row(0x11, 0x09, 0x42, 0x41), Row(0x41, 0x86, 0x20, 0x09), Row(0x40, 0x09, 0x40, 0x04),
      Row(0x66, 0x00, 0x00, 0x10), Row(0x40, 0x00, 0x00, 0x40), Row(0x55, 0x55, 0x55, 0x00),
      x1 := Row(0x40, 0x00, 0x00, 0x00), x2 := Row(0x00, 0x00, 0x00, 0x01), x3 := Row(0x40, 0x00, 0x00, 0x00),
      x5 := Row(0x00, 0x00, 0x00, 0x01), x6 := Row(0x00, 0x00, 0x00, 0x05), x7 := Row(0x00, 0x00, 0x00, 0x15))
  }

  function Level10(): (p: Masked)
    ensures Separated(p)
  {
    Walled(93, 36,
      Row(0x00, 0x55, 0x55, 0x54), Row(0x55, 0x20, 0x00, 0x01), Row(0x40, 0x05, 0x62, 0x49),
      Row(0x48, 0x06, 0x18, 0x04), Row(0x40, 0x04, 0x20, 0x49), Row(0x66, 0x04, 0x90, 0x44),
      Row(0x18, 0x05, 0x41, 0x50), Row(0x40, 0x00, 0x04, 0x44), Row(0x15, 0x55, 0x50, 0x41),
      x3 := Row(0x00, 0x00, 0x00, 0x01), x5 := Row(0x00, 0x00, 0x00, 0x01), x6 := Row(0x40, 0x00, 0x00, 0x05),
      x7 := Row(0x00, 0x00, 0x01, 0x11))
  }

  function Level11(): (p: Masked)
    ensures Separated(p)
  {
    Walled(30, 108,
      Row(0x55, 0x55, 0x55, 0x55), Row(0x40, 0x01, 0x00, 0x01), Row(0x41, 0xA0, 0x02, 0x85),
      Row(0x50, 0x20, 0x14, 0x09), Row(0x60, 0x06, 0x68, 0x15), Row(0x51, 0x40, 0x14, 0x01),
      Row(0x60, 0x92, 0x00, 0x09), Row(0x59, 0x50, 0x04, 0x05), Row(0x14, 0x55, 0x55, 0x54))
  }

  function Level12(): (p: Masked)
    ensures Separated(p)
  {
    Walled(17, 92,
      Row(0x50, 0x01, 0x41, 0x54), Row(0x45, 0x56, 0x15, 0x25), Row(0x40, 0x28, 0x00, 0x81),
      Row(0x45, 0x05, 0x81, 0x91), Row(0x44, 0x85, 0x61, 0x41), Row(0x45, 0x05, 0x01, 0x11),
      Row(0x40, 0x08, 0x00, 0x01), Row(0x40, 0x00, 0x20, 0x01), Row(0x55, 0x55, 0x55, 0x55))
  }

  function Level13(): (p: Masked)
    ensures Separated(p)
  {
    Walled(18, 113,
      Row(0x15, 0x55, 0x55, 0x54), Row(0x41, 0x00, 0x00, 0x85), Row(0x44, 0x06, 0x02, 0x51),
      Row(0x40, 0x00, 0x80, 0x11), Row(0x48, 0x00, 0x00, 0x19), Row(0x44, 0x00, 0x20, 0x01),
      Row(0x50, 0x00, 0x88, 0x19), Row(0x40, 0x40, 0x21, 0x11), Row(0x15, 0x55, 0x55, 0x54))
  }

  function Level14(): (p: Masked)
    ensures Separated(p)
  {
    Walled(36, 50,
      Row(0x55, 0x55, 0x55, 0x55), Row(0x66, 0x00, 0x00, 0x99), Row(0x49, 0x00, 0x01, 0x41),
      Row(0x40, 0x00, 0x02, 0x01), Row(0x40, 0x00, 0x24, 0x01), Row(0x40, 0x02, 0x00, 0x01),
      Row(0x49, 0x00, 0x00, 0x41), Row(0x66, 0x00, 0x00, 0x99), Row(0x55, 0x55, 0x55, 0x55))
  }

  function Level15(): (p: Masked)
    ensures Separated(p)
  {
    Walled(51, 76,
      Row(0x15, 0x54, 0x55, 0x54), Row(0x40, 0x09, 0x00, 0x21), Row(0x44, 0x84, 0x10, 0x21),
      Row(0x40, 0x40, 0x68, 0x61), Row(0x11, 0x01, 0x20, 0x11), Row(0x60, 0x00, 0x10, 0x61),
      Row(0x10, 0x00, 0x80, 0x04), Row(0x60, 0x00, 0x00, 0x09), Row(0x15, 0x55, 0x55, 0x54))
  }

  function Level16(): (p: Masked)
    ensures Separated(p)
  {
    Walled(35, 19,
      Row(0x55, 0x55, 0x55, 0x55), Row(0x50, 0x62, 0x00, 0x09), Row(0x60, 0x98, 0x00, 0x05),
      Row(0x51, 0x50, 0x08, 0x05), Row(0x50, 0x02, 0x64, 0x01), Row(0x68, 0x00, 0x09, 0x81),
      Row(0x52, 0x00, 0x55, 0x81), Row(0x59, 0x04, 0x00, 0x01), Row(0x55, 0x55, 0x55, 0x55))
  }

  function Level17(): (p: Masked)
    ensures Separated(p)
  {
    Walled(29, 124,
      Row(0x55, 0x55, 0x55, 0x55), Row(0x49, 0x00, 0x00, 0x41), Row(0x44, 0x26, 0x98, 0x11),
      Row(0x40, 0x19, 0x64, 0x81), Row(0x49, 0x00, 0x02, 0x41), Row(0x42, 0x60, 0x09, 0x01),
      Row(0x44, 0x11, 0x64, 0x11), Row(0x40, 0x21, 0x80, 0x01), Row(0x55, 0x55, 0x55, 0x55))
  }

  function Level18(): (p: Masked)
    ensures Separated(p)
  {
    Walled(115, 26,
      Row(0x55, 0x55, 0x55, 0x55), Row(0x48, 0x02, 0x01, 0x01), Row(0x41, 0x98, 0x06, 0x01),
      Row(0x40, 0x64, 0x01, 0x81), Row(0x40, 0x81, 0x02, 0x61), Row(0x46, 0x40, 0x49, 0x01),
      Row(0x49, 0x84, 0x84, 0x01), Row(0x64, 0x04, 0x00, 0x41), Row(0x55, 0x55, 0x55, 0x55))
  }

  function Level19(): (p: Masked)
    ensures Separated(p)
  {
    Walled(126, 110,
      Row(0x55, 0x55, 0x55, 0x55), Row(0x60, 0x14, 0x00, 0x59), Row(0x44, 0x10, 0x00, 0x61),
      Row(0x49, 0x02, 0x50, 0x81), Row(0x44, 0x01, 0x80, 0x01), Row(0x40, 0x10, 0x24, 0x01),
      Row(0x45, 0x24, 0x58, 0x11), Row(0x49, 0x18, 0x00, 0x51), Row(0x55, 0x55, 0x55, 0x55))
  }

  function Level20(): (p: Masked)
    ensures Separated(p)
  {
    Walled(77, 66,
      Row(0x55, 0x55, 0x55, 0x55), Row(0x40, 0x98, 0x00, 0x01), Row(0x58, 0x24, 0x58, 0x05),
      Row(0x44, 0x48, 0x04, 0x11), Row(0x40, 0x41, 0x41, 0x09), Row(0x44, 0x10, 0x21, 0x11),
      Row(0x50, 0x25, 0x18, 0x25), Row(0x40, 0x00, 0x26, 0x01), Row(0x55, 0x55, 0x55, 0x55))
  }

  function Level21(): (p: Masked)
    ensures Separated(p)
  {
    Walled(103, 105,
      Row(0x55, 0x55, 0x55, 0x55), Row(0x45, 0x40, 0x08, 0x05), Row(0x40, 0x40, 0x00, 0x45),
      Row(0x40, 0x58, 0x00, 0x21), Row(0x42, 0x00, 0x80, 0x85), Row(0x40, 0x10, 0x05, 0x61),
      Row(0x42, 0x20, 0x02, 0x29), Row(0x55, 0x55, 0x55, 0x55), Row(0x00, 0x00, 0x00, 0x00))
  }

  function Level22(): (p: Masked)
    ensures Separated(p)
  {
    Walled(103, 105,
      Row(0x55, 0x55, 0x55, 0x55), Row(0x64, 0x19, 0x18, 0x11), Row(0x40, 0x10, 0x00, 0x01),
      Row(0x60, 0x10, 0x60, 0x81), Row(0x51, 0x80, 0x02, 0x15), Row(0x48, 0x40, 0x56, 0x01),
      Row(0x40, 0x04, 0x40, 0x81), Row(0x55, 0x55, 0x55, 0x55), Row(0x00, 0x00, 0x00, 0x00))
  }

  function Level23(): (p: Masked)
    ensures Separated(p)
  {
    Walled(103, 105,
      Row(0x15, 0x55, 0x55, 0x54), Row(0x44, 0x19, 0x18, 0x11), Row(0x40, 0x20, 0x40, 0x01),
      Row(0x50, 0x10, 0x21, 0x81), Row(0x41, 0x81, 0x0A, 0x21), Row(0x58, 0x40, 0x52, 0x01),
      Row(0x40, 0x04, 0x40, 0x81), Row(0x15, 0x55, 0x55, 0x54), Row(0x00, 0x00, 0x00, 0x00),
      x7 := Row(0x40, 0x00, 0x00, 0x01))
  }

  function Level24(): (p: Masked)
    ensures Separated(p)
  {
    Walled(103, 105,
      Row(0x55, 0x55, 0x55, 0x55), Row(0x40, 0x04, 0x00, 0x05), Row(0x45, 0x88, 0x01, 0x65),
      Row(0x46, 0x00, 0x24, 0x15), Row(0x42, 0x09, 0x14, 0x01), Row(0x46, 0x21, 0x00, 0x51),
      Row(0x45, 0x00, 0x45, 0x69), Row(0x55, 0x55, 0x55, 0x55), Row(0x00, 0x00, 0x00, 0x00))
  }

  function Level25(): (p: Masked)
    ensures Separated(p)
  {
    Walled(103, 105,
      Row(0x55, 0x55, 0x55, 0x55), Row(0x40, 0x00, 0x00, 0x11), Row(0x48, 0x58, 0x08, 0x01),
      Row(0x40, 0x60, 0x81, 0x41), Row(0x48, 0x01, 0x41, 0x81), Row(0x46, 0x02, 0x40, 0x21),
      Row(0x45, 0x84, 0x00, 0x01), Row(0x55, 0x55, 0x55, 0x55), Row(0x00, 0x00, 0x00, 0x00))
  }

  /** All levels but the second. */
  function Level(level: int): (p: Masked)
    requires 0 <= level < 25 && level != 1
  {
    match level
    case 0 => Level1()
    case 2 => Level3()
    case 3 => Level4()
    case 4 => Level5()
    case 5 => Level6()
    case 6 => Level7()
    case 7 => Level8()
    case 8 => Level9()
    case 9 => Level10()
    case 10 => Level11()
    case 11 => Level12()
    case 12 => Level13()
    case 13 => Level14()
    case 14 => Level15()
    case 15 => Level16()
    case 16 => Level17()
    case 17 => Level18()
    case 18 => Level19()
    case 19 => Level20()
    case 20 => Level21()
    case 21 => Level22()
    case 22 => Level23()
    case 23 => Level24()
    case _ => Level25()
  }

  lemma Level1Closed()
    ensures Closed(Level1()) && CellAt(Level1().plan.rows, 143) != BUBB
  {
    hide Separated, RowApart, NoBallIn;
  }

  lemma Level3Closed()
    ensures Closed(Level3()) && CellAt(Level3().plan.rows, 143) != BUBB
  {
    hide Separated, RowApart, NoBallIn;
  }

  lemma Level4Closed()
    ensures Closed(Level4()) && CellAt(Level4().plan.rows, 143) != BUBB
  {
    hide Separated, RowApart, NoBallIn;
  }

  lemma Level5Closed()
    ensures Closed(Level5()) && CellAt(Level5().plan.rows, 143) != BUBB
  {
    hide Separated, RowApart, NoBallIn;
  }

  lemma Level6Closed()
    ensures Closed(Level6()) && CellAt(Level6().plan.rows, 143) != BUBB
  {
    hide Separated, RowApart, NoBallIn;
  }

  lemma Level7Closed()
    ensures Closed(Level7()) && CellAt(Level7().plan.rows, 143) != BUBB
  {
    hide Separated, RowApart, NoBallIn;
  }

  lemma Level8Closed()
    ensures Closed(Level8()) && CellAt(Level8().plan.rows, 143) != BUBB
  {
    hide Separated, RowApart, NoBallIn;
  }

  lemma Level9Closed()
    ensures Closed(Level9()) && CellAt(Level9().plan.rows, 143) != BUBB
  {
    hide Separated, RowApart, NoBallIn;
  }

  lemma Level10Closed()
    ensures Closed(Level10()) && CellAt(Level10().plan.rows, 143) != BUBB
  {
    hide Separated, RowApart, NoBallIn;
  }

  lemma Level11Closed()
    ensures Closed(Level11()) && CellAt(Level11().plan.rows, 143) != BUBB
  {
    hide Separated, RowApart, NoBallIn;
  }

  lemma Level12Closed()
    ensures Closed(Level12()) && CellAt(Level12().plan.rows, 143) != BUBB
  {
    hide Separated, RowApart, NoBallIn;
  }

  lemma Level13Closed()
    ensures Closed(Level13()) && CellAt(Level13().plan.rows, 143) != BUBB
  {
    hide Separated, RowApart, NoBallIn;
  }

  lemma Level14Closed()
    ensures Closed(Level14()) && CellAt(Level14().plan.rows, 143) != BUBB
  {
    hide Separated, RowApart, NoBallIn;
  }

  lemma Level15Closed()
    ensures Closed(Level15()) && CellAt(Level15().plan.rows, 143) != BUBB
  {
    hide Separated, RowApart, NoBallIn;
  }

  lemma Level16Closed()
    ensures Closed(Level16()) && CellAt(Level16().plan.rows, 143) != BUBB
  {
    hide Separated, RowApart, NoBallIn;
  }

  lemma Level17Closed()
    ensures Closed(Level17()) && CellAt(Level17().plan.rows, 143) != BUBB
  {
    hide Separated, RowApart, NoBallIn;
  }

  lemma Level18Closed()
    ensures Closed(Level18()) && CellAt(Level18().plan.rows, 143) != BUBB
  {
    hide Separated, RowApart, NoBallIn;
  }

  lemma Level19Closed()
    ensures Closed(Level19()) && CellAt(Level19().plan.rows, 143) != BUBB
  {
    hide Separated, RowApart, NoBallIn;
  }

  lemma Level20Closed()
    ensures Closed(Level20()) && CellAt(Level20().plan.rows, 143) != BUBB
  {
    hide Separated, RowApart, NoBallIn;
  }

  lemma Level21Closed()
    ensures Closed(Level21()) && CellAt(Level21().plan.rows, 143) != BUBB
  {
    hide Separated, RowApart, NoBallIn;
  }

  lemma Level22Closed()
    ensures Closed(Level22()) && CellAt(Level22().plan.rows, 143) != BUBB
  {
    hide Separated, RowApart, NoBallIn;
  }

  lemma Level23Closed()
    ensures Closed(Level23()) && CellAt(Level23().plan.rows, 143) != BUBB
  {
    hide Separated, RowApart, NoBallIn;
  }

  lemma Level24Closed()
    ensures Closed(Level24()) && CellAt(Level24().plan.rows, 143) != BUBB
  {
    hide Separated, RowApart, NoBallIn;
  }

  lemma Level25Closed()
    ensures Closed(Level25()) && CellAt(Level25().plan.rows, 143) != BUBB
  {
    hide Separated, RowApart, NoBallIn;
  }

  predicate ClosedAndClear(p: Masked) { Closed(p) && CellAt(p.plan.rows, 143) != BUBB }

  lemma LevelIsClosed(level: int)
    requires 0 <= level < 25 && level != 1
    ensures ClosedAndClear(Level(level))
  {
    hide Closed, CellAt, Walled, RowApart, NoBallIn;
    match level
    case 0 => Level1Closed();
    case 2 => Level3Closed();
    case 3 => Level4Closed();
    case 4 => Level5Closed();
    case 5 => Level6Closed();
    case 6 => Level7Closed();
    case 7 => Level8Closed();
    case 8 => Level9Closed();
    case 9 => Level10Closed();
    case 10 => Level11Closed();
    case 11 => Level12Closed();
    case 12 => Level13Closed();
    case 13 => Level14Closed();
    case 14 => Level15Closed();
    case 15 => Level16Closed();
    case 16 => Level17Closed();
    case 17 => Level18Closed();
    case 18 => Level19Closed();
    case 19 => Level20Closed();
    case 20 => Level21Closed();
    case 21 => Level22Closed();
    case 22 => Level23Closed();
    case 23 => Level24Closed();
    case _ => Level25Closed();
  }

  lemma Level2WellLaned()
    ensures WellLaned(Level2())
  {
    Level2Row0();
    Level2Row1();
    Level2Row2();
    Level2Row3();
    Level2Row4();
    Level2Row5();
    Level2Row6();
    Level2Row7();
    hide RowOk;
  }

  lemma Level2Parked()
    ensures Parked(Level2()) && CellAt(Level2().plan.rows, 143) != BUBB
  {
  }

  function PlanOf(level: int): Plan
    requires 0 <= level < 25
  {
    if level == 1 then Level2().plan else Level(level).plan
  }

  /** All plans in order. */
  function Plans(): (s: seq<Plan>)
    ensures |s| == 25
  {
    hide PlanOf;
    seq(25, level requires 0 <= level < 25 => PlanOf(level))
  }

  lemma PlansAt(level: int)
    requires 0 <= level < 25
    ensures Plans()[level] == PlanOf(level)
  {
    hide PlanOf;
  }

  /** levels is the table of examples/dstar.h. */
  ghost predicate Ships(levels: Levels) { forall level :: 0 <= level < 25 ==> Holds(levels, level, PlanOf(level)) }

  lemma ThereIsATable()
    ensures Ships(Table(Plans()))
  {
    hide Holds, Table, PlanOf, Plans;
    forall level | 0 <= level < 25
      ensures Holds(Table(Plans()), level, PlanOf(level))
    {
      TableHolds(Plans(), level);
      PlansAt(level);
    }
  }

  lemma Level2Holds(levels: Levels)
    requires Ships(levels)
    ensures Holds(levels, 1, Level2().plan)
  {
    hide Level, Level2, Holds;
    assert Holds(levels, 1, PlanOf(1));
  }

  lemma LevelHolds(levels: Levels, level: int)
    requires Ships(levels) && 0 <= level < 25 && level != 1
    ensures Holds(levels, level, Level(level).plan)
  {
    hide Level, Level2, Holds;
    assert Holds(levels, level, PlanOf(level));
  }

  /** Every level but the second starts sealed. */
  lemma ShippedSealed(levels: Levels, level: int)
    requires Ships(levels) && 0 <= level < 25 && level != 1
    ensures StartsSealed(levels, level) && WellMade(levels, level)
  {
    hide Ships, Closed, Holds, StartsSealed, WellMade, Level, CellAt;
    LevelHolds(levels, level);
    LevelIsClosed(level);
    ClosedIsSealed(levels, level, Level(level));
  }

  lemma Level2IsWellMade(levels: Levels)
    requires Ships(levels)
    ensures WellMade(levels, 1)
  {
    Level2Holds(levels);
    assert Level2().plan.ball == 30 && Level2().plan.box == 86;
    hide Ships, Level2, CellAt, Unpacked;
    forall c: nat | c < 144
      ensures CellAt(Level2().plan.rows, c) != BALL
    {
      Level2Cell(c);
    }
  }

  lemma Level2Cell(c: nat)
    requires c < 144
    ensures CellAt(Level2().plan.rows, c) != BALL
  {
    hide Crumb;
    Level2Byte(c / 4);
    NoBallDigit(ByteAt(Level2().plan.rows, c / 4), c % 4);
  }

  lemma Level2Byte(i: nat)
    requires i < 36
    ensures NoBall(ByteAt(Level2().plan.rows, i))
  {
  }

  lemma NoBallDigit(v: Byte, q: nat)
    requires NoBall(v) && q < 4
    ensures Crumb(v, q) != BALL
  {
  }

  /** No slide ever leaves the board, on any shipped level. */
  lemma ShippedStaysOn(levels: Levels, level: int)
    requires Ships(levels) && 0 <= level < 25
    ensures StaysOn(levels, level) && WellMade(levels, level)
  {
    hide Ships, StartsSealed, StaysOn, WellMade, WellLaned, Parked, Holds, Level2;
    if level == 1 {
      Level2Holds(levels);
      Level2WellLaned();
      Level2Parked();
      LanedStaysOn(levels, 1, Level2());
      Level2IsWellMade(levels);
    } else {
      ShippedSealed(levels, level);
      SealedStaysOn(levels, level);
    }
  }

  lemma ShippedWellMade(levels: Levels)
    requires Ships(levels)
    ensures AllWellMade(levels)
  {
    hide Ships, WellMade, StaysOn;
    forall level | 0 <= level < 25
      ensures WellMade(levels, level) && Placeable(levels, level)
    {
      ShippedStaysOn(levels, level);
      Made(levels, level);
    }
  }

  lemma Made(levels: Levels, level: int)
    requires 0 <= level < 25 && WellMade(levels, level)
    ensures Placeable(levels, level)
  {
  }

  /** No shipped level has a bubble in its last cell, which the scan does not look at. */
  lemma ShippedLastCell(levels: Levels, level: int)
    requires Ships(levels) && 0 <= level < 25
    ensures Placeable(levels, level) && Loaded(levels, level)[143] != BUBB
  {
    ShippedStaysOn(levels, level);
    Made(levels, level);
    hide Ships, Closed, Level, Level2, CellAt, StaysOn, WellMade;
    if level == 1 {
      Level2Holds(levels);
      Level2Parked();
      LastOfPlan(levels, level, Level2().plan);
    } else {
      LevelHolds(levels, level);
      LevelIsClosed(level);
      LastOfPlan(levels, level, Level(level).plan);
    }
  }

  /** So on the levels that ship the scan finds no bubble exactly when none is left. */
  lemma ShippedScanIsExact(levels: Levels, level: int, b: Board, ball: int, box: int)
    requires Ships(levels) && 0 <= level < 25 && Placeable(levels, level)
    requires Tidy(b, Loaded(levels, level), ball, box)
    ensures NoneScanned(b) <==> Bubbles(b) == {}
  {
    hide Ships, Tidy, Loaded;
    ShippedLastCell(levels, level);
    ScanIsExact(b, Loaded(levels, level), ball, box);
  }

  /** From the start of a shipped level, whatever keys are pressed, bubbles left and bubbles taken add up
      to those loaded, and the scan leaves the level exactly when all of them have been taken. */
  lemma ShippedAccount(levels: Levels, keys: seq<Key>, i: nat, n: nat, level: int)
    requires Ships(levels) && AllPlaceable(levels) && i <= n <= |keys| && 0 <= level < 25
    requires AfterKeys(levels, keys[..i]) == Load(levels, level) && OneLevel(levels, keys, i, n)
    ensures |Bubbles(AfterKeys(levels, keys[..n]).b)| + TakenIn(levels, keys, i, n) == |Bubbles(Loaded(levels, level))|
    ensures n < |keys| && !Reloads(level, keys[n]) ==>
              (NoneScanned(Pressed(levels, keys, n).b) <==>
               TakenIn(levels, keys, i, n) + |TakenBy(AfterKeys(levels, keys[..n]), keys[n])|
               == |Bubbles(Loaded(levels, level))|)
  {
    hide Ships, AfterKey, AfterKeys, TakenBy, Bubbles, Reloads, Loaded, OneLevel, NoneScanned, TakenIn, StaysOn,
      WellMade;
    ShippedStaysOn(levels, level);
    ShippedLastCell(levels, level);
    LevelAccount(levels, keys, i, n, level);
  }

  lemma LastOfPlan(levels: Levels, level: int, p: Plan)
    requires 0 <= level < 25 && Holds(levels, level, p) && CellAt(p.rows, 143) != BUBB && Placeable(levels, level)
    ensures Loaded(levels, level)[143] != BUBB
  {
    hide CellAt;
  }

  /** The second level is open at the top, so no region seals it: from the ball's cell 30 one step left
      leads to cell 29, and one step up from there to cell 13 in the top row. */
  lemma Level2IsNotSealed(levels: Levels)
    requires Ships(levels)
    ensures !StartsSealed(levels, 1)
  {
    Level2Open(levels);
    hide Ships, Loaded, Seals, CellTidy;
    forall s: set<int> | 30 in s
      ensures !Seals(Loaded(levels, 1), s)
    {
      OpenAtTheTop(Loaded(levels, 1), s);
    }
  }

  lemma Level2Open(levels: Levels)
    requires Ships(levels)
    ensures Placeable(levels, 1) && BallAt(levels, 1) == 30
    ensures Loaded(levels, 1)[29] != WALL && Loaded(levels, 1)[13] != WALL
  {
    Level2Holds(levels);
    Level2Cells();
    hide Ships, Level2, CellAt;
  }

  lemma Level2Cells()
    ensures Level2().plan.ball == 30 && Level2().plan.box == 86
    ensures CellAt(Level2().plan.rows, 29) == EMPTY && CellAt(Level2().plan.rows, 13) == EMPTY
  {
  }

  lemma OpenAtTheTop(b: Board, s: set<int>)
    requires 30 in s && b[29] != WALL && b[13] != WALL
    ensures !Seals(b, s)
  {
    assert Seals(b, s) ==> StaysIn(b, s, 30, -1);
    assert Seals(b, s) && 29 in s ==> StaysIn(b, s, 29, -16);
  }

  /** main, with the levels that ship: any keys lead to the end of the game, to its exit key, or to
      waiting for the next one. No key ever takes a piece off the board. */
  method PlayShipped(game: DStar, keys: seq<Key>) returns (r: Outcome, used: nat)
    requires Ships(game.levels) && game.board.Length == 144
    modifies game, game.board
    ensures r != OffBoard && used <= |keys|
    ensures if r == Finished then game.level == MAXLEVEL else game.InLevel()
    ensures r == Waiting ==> used == |keys|
    ensures r == Left ==> 0 < used && keys[used - 1] == Exit
    ensures AllWellMade(game.levels)
    ensures game.TheState() == AfterKeys(game.levels, if r == Left then keys[..used - 1] else keys[..used])
  {
    hide Ships, StaysOn, WellMade, AfterKeys;
    ShippedWellMade(game.levels);
    r, used := game.Play(keys);
    if r == OffBoard { ShippedStaysOn(game.levels, game.level); }
  }
}
