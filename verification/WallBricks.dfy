/** The wall of examples/wall.c: the level builder in main, hit_brick as a lookup in the map of brick
    halves, and destroy_brick with its parity rule. */
module WallBricks {

  /** The two sprites a brick is drawn with. */
  datatype Half = Left | Right

  /** What stands at (row, column). */
  type Bricks = map<(int, int), Half>

  predicate Spot(r: int, c: int) { 4 <= r <= 8 && 0 <= c <= 31 }

  /** Rows 4, 6 and 8 start with a left half, rows 5 and 7 with a right half. */
  function HalfAt(r: int, c: int): Half { if (r + c) % 2 == 0 then Left else Right }

  /** Every half stands where the builder put it. */
  ghost predicate WellLaid(b: Bricks) {
    forall r, c :: (r, c) in b ==> Spot(r, c) && b[(r, c)] == HalfAt(r, c)
  }

  ghost predicate FullWall(b: Bricks) {
    WellLaid(b) && forall r, c :: Spot(r, c) ==> (r, c) in b
  }

  /** The other half of the brick that has a half at (r,c), if the builder gave it one: a left half
      is joined to its right neighbour, a right half to its left one; at the sides of rows 5 and 7
      lone halves remain. */
  function Partner(r: int, c: int): set<(int, int)> {
    match HalfAt(r, c)
    case Left => if c < 31 then {(r, c + 1)} else {}
    case Right => if c > 0 then {(r, c - 1)} else {}
  }

  /** No brick is ever broken: with each half its partner is there. */
  ghost predicate Whole(b: Bricks) { forall r, c :: (r, c) in b ==> Partner(r, c) <= b.Keys }

  /** One half stands for each brick: its left half, or a lone right half in column 0. */
  predicate Anchor(b: Bricks, r: int, c: int) {
    (r, c) in b && (HalfAt(r, c) == Left || c == 0)
  }

  function Anchors(b: Bricks, r: int): set<int> { set c: int | 0 <= c < 32 && Anchor(b, r, c) }

  function BricksInRow(b: Bricks, r: int): nat { |Anchors(b, r)| }

  /** What the bricks still standing are worth: 13 minus the row for each. */
  function Worth(b: Bricks): nat {
    9 * BricksInRow(b, 4) + 8 * BricksInRow(b, 5) + 7 * BricksInRow(b, 6)
    + 6 * BricksInRow(b, 7) + 5 * BricksInRow(b, 8)
  }

  function Abs(v: int): nat { if v < 0 then -v else v }

  /** What destroy_brick blanks besides (m,n), by the parity of |m - n|. */
  function Blanked(m: int, n: int): set<(int, int)> {
    if Abs(m - n) % 2 == 1 then (if n > 0 then {(m, n - 1)} else {})
    else (if n < 31 then {(m, n + 1)} else {})
  }

  function Destroyed(b: Bricks, m: int, n: int): Bricks { b - ({(m, n)} + Blanked(m, n)) }

  /** The parity rule finds exactly the partner the builder gave the hit half. */
  lemma BlankedIsPartner(m: int, n: int)
    requires Spot(m, n)
    ensures Blanked(m, n) == Partner(m, n)
  {
  }

  lemma PartnerOfPartner(r: int, c: int, c': int)
    requires Spot(r, c) && Spot(r, c')
    ensures (r, c') in Partner(r, c) <==> (r, c) in Partner(r, c')
  {
  }

  /** One hit takes away one whole brick and nothing else, and its worth is 13 minus its row. */
  lemma DestroyOne(b: Bricks, m: int, n: int)
    requires WellLaid(b) && Whole(b) && (m, n) in b
    ensures WellLaid(Destroyed(b, m, n)) && Whole(Destroyed(b, m, n))
    ensures b.Keys - Destroyed(b, m, n).Keys == {(m, n)} + Partner(m, n)
    ensures Worth(Destroyed(b, m, n)) == Worth(b) - (13 - m)
  {
    var b' := Destroyed(b, m, n);
    BlankedIsPartner(m, n);
    DestroyKeepsWhole(b, m, n);
    AnchorTaken(b, m, n);
    forall r | r != m
      ensures BricksInRow(b', r) == BricksInRow(b, r)
    {
      assert Anchors(b', r) == Anchors(b, r);
    }
  }

  lemma DestroyKeepsWhole(b: Bricks, m: int, n: int)
    requires WellLaid(b) && Whole(b) && (m, n) in b
    ensures Whole(Destroyed(b, m, n))
  {
    var b' := Destroyed(b, m, n);
    BlankedIsPartner(m, n);
    forall r, c | (r, c) in b'
      ensures Partner(r, c) <= b'.Keys
    {
      if r == m {
        PartnerOfPartner(m, n, c);
        forall c' | (m, c') in Partner(m, n) && Spot(m, c')
          ensures (m, c') !in Partner(m, c)
        {
          PartnerOfPartner(m, c', c);
          PartnerOfPartner(m, c', n);
        }
      }
    }
  }

  lemma HalvesAlternate(r: int, c: int)
    ensures HalfAt(r, c) != HalfAt(r, c + 1) && HalfAt(r, c) != HalfAt(r, c - 1)
  {
  }

  /** The column of the anchor of the brick that has a half at (r,c). */
  function AnchorColumn(r: int, c: int): int { if HalfAt(r, c) == Left || c == 0 then c else c - 1 }

  lemma AnchorStands(b: Bricks, r: int, c: int)
    requires WellLaid(b) && Whole(b) && (r, c) in b
    ensures Anchor(b, r, AnchorColumn(r, c)) && AnchorColumn(r, c) in Anchors(b, r)
  {
    hide HalfAt;
    HalvesAlternate(r, c);
    assert Partner(r, c) <= b.Keys;
    assert HalfAt(r, c) == Right && c > 0 ==> (r, c - 1) in Partner(r, c);
  }

  /** Of the halves a hit removes exactly one is its brick's anchor. */
  lemma AnchorTaken(b: Bricks, m: int, n: int)
    requires WellLaid(b) && Whole(b) && (m, n) in b
    ensures BricksInRow(Destroyed(b, m, n), m) == BricksInRow(b, m) - 1
  {
    var b', anchor := Destroyed(b, m, n), AnchorColumn(m, n);
    AnchorStands(b, m, n);
    forall c
      ensures Anchor(b', m, c) <==> Anchor(b, m, c) && c != anchor
    {
      AnchorTakenAt(b, m, n, c);
    }
    assert Anchors(b, m) == Anchors(b', m) + {anchor};
  }

  lemma AnchorTakenAt(b: Bricks, m: int, n: int, c: int)
    requires WellLaid(b) && Whole(b) && (m, n) in b
    ensures Anchor(Destroyed(b, m, n), m, c) <==> Anchor(b, m, c) && c != AnchorColumn(m, n)
  {
    hide HalfAt, Blanked, Whole;
    BlankedIsPartner(m, n);
    HalvesAlternate(m, n);
  }

  lemma WorthZero(b: Bricks)
    requires WellLaid(b) && Whole(b)
    ensures Worth(b) == 0 <==> b == map[]
    ensures b != map[] ==> Worth(b) >= 5
  {
    if b == map[] {
      forall r
        ensures BricksInRow(b, r) == 0
      {
        assert Anchors(b, r) == {};
      }
    } else {
      var k :| k in b;
      var (r, c) := k;
      assert (r, c) in b;
      AnchorStands(b, r, c);
      hide Anchors, AnchorColumn, HalfAt;
      assert BricksInRow(b, r) >= 1;
    }
  }

  /** The columns below k that hold an anchor in a full row. */
  function RowAnchors(r: int, k: nat): (s: set<int>)
    ensures forall c :: c in s <==> 0 <= c < k && (HalfAt(r, c) == Left || c == 0)
  {
    if k == 0 then {}
    else if HalfAt(r, k - 1) == Left || k == 1 then RowAnchors(r, k - 1) + {k - 1}
    else RowAnchors(r, k - 1)
  }

  lemma ParityOfSum(r: int, c: int)
    ensures (r + c) % 2 == (r % 2 + c % 2) % 2
  {
  }

  lemma HalfByParity(r: int, c: int)
    ensures HalfAt(r, c) == Left <==> r % 2 == c % 2
  {
    ParityOfSum(r, c);
  }

  lemma {:induction false} RowAnchorCount(r: int, k: nat)
    ensures |RowAnchors(r, k)| == if k == 0 then 0 else if r % 2 == 0 then (k + 1) / 2 else 1 + k / 2
  {
    if k > 0 {
      RowAnchorCount(r, k - 1);
      HalfByParity(r, k - 1);
      hide HalfAt;
      assert k - 1 !in RowAnchors(r, k - 1);
    }
  }

  /** The total score of a level. */
  lemma FullWallWorth(b: Bricks)
    requires FullWall(b)
    ensures Whole(b) && Worth(b) == 574
  {
    forall r | 4 <= r <= 8
      ensures BricksInRow(b, r) == if r % 2 == 0 then 16 else 17
    {
      RowAnchorCount(r, 32);
      assert Anchors(b, r) == RowAnchors(r, 32);
    }
  }

  /** The wall is built up to the row pair at m + 3, and there up to column n. */
  ghost predicate Built(b: Bricks, m: int, n: int) {
    WellLaid(b) && forall r, c :: Spot(r, c) && (r < m + 3 || (r <= m + 4 && c < n)) ==> (r, c) in b
  }

  function FourHalves(b: Bricks, m: int, n: int): Bricks {
    b[(m + 3, n) := Left][(m + 3, n + 1) := Right][(m + 4, n) := Right][(m + 4, n + 1) := Left]
  }

  function TwoHalves(b: Bricks, m: int, n: int): Bricks { b[(m + 3, n) := Left][(m + 3, n + 1) := Right] }

  lemma FourMore(b: Bricks, m: int, n: int)
    requires Built(b, m, n) && (m == 1 || m == 3) && 0 <= n <= 30 && n % 2 == 0
    ensures Built(FourHalves(b, m, n), m, n + 2)
  {
  }

  lemma TwoMore(b: Bricks, n: int)
    requires Built(b, 5, n) && 0 <= n <= 30 && n % 2 == 0
    ensures Built(TwoHalves(b, 5, n), 5, n + 2)
  {
  }

  lemma NextRows(b: Bricks, m: int)
    ensures Built(b, m, 32) ==> Built(b, m + 2, 0)
    ensures Built(map[], 1, 0)
    ensures Built(b, 5, 32) ==> FullWall(b)
  {
  }

  /** The level builder: two passes of two rows drawn with shifted bricks, and a last row. */
  method BuildWall() returns (b: Bricks, m: int)
    ensures FullWall(b)
  {
    hide Built, FullWall;
    b := map[];
    m := 1;
    NextRows(b, m);
    while m <= 4
      invariant (m == 1 || m == 3 || m == 5) && Built(b, m, 0)
      decreases 5 - m
    {
      var n := 0;
      while n <= 30
        invariant 0 <= n <= 32 && n % 2 == 0 && Built(b, m, n)
        decreases 32 - n
      {
        FourMore(b, m, n);
        b := b[(m + 3, n) := Left][(m + 3, n + 1) := Right][(m + 4, n) := Right][(m + 4, n + 1) := Left];
        n := n + 2;
      }
      NextRows(b, m);
      m := m + 2;
    }
    var n := 0;
    while n <= 30
      invariant 0 <= n <= 32 && n % 2 == 0 && Built(b, m, n)
      decreases 32 - n
    {
      TwoMore(b, n);
      b := b[(m + 3, n) := Left][(m + 3, n + 1) := Right];
      n := n + 2;
    }
    NextRows(b, m);
  }
}
