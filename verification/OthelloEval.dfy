/** The machine's judgement in examples/othello.c: the static evaluator s_move, the move table of
    fillmt, its display by analyze, its order cmpmov and the choice made by my_mov. */
module OthelloEval {
  import opened OthelloRays
  import opened OthelloFlips
  import opened OthelloRetake

  predicate Rim(v: int) { v == 0 || v == 7 }

  function Bit(f: bool, w: nat): nat { if f then w else 0 }

  // ----- what one possible reply of the opponent costs; q is a square number

  predicate Reply(a: Board, o: int, q: nat)
    requires q < 64
  {
    MoveScore(a, o, q / 8, q % 8) > 0
  }

  predicate RimReply(a: Board, o: int, q: nat)
    requires q < 64
  {
    Reply(a, o, q) && (Rim(q / 8) || Rim(q % 8))
  }

  predicate CornerReply(a: Board, o: int, q: nat)
    requires q < 64
  {
    Reply(a, o, q) && Rim(q / 8) && Rim(q % 8)
  }

  /** A reply counts when it is a corner or could not be taken back. */
  predicate Counted(a: Board, o: int, p: int, e: int, q: nat)
    requires q < 64
  {
    Reply(a, o, q) && ((Rim(q / 8) && Rim(q % 8)) || SafeFromRetake(a, o, p, e, q / 8, q % 8))
  }

  predicate HeavyReply(a: Board, o: int, p: int, e: int, q: nat)
    requires q < 64
  {
    Counted(a, o, p, e, q) && MoveScore(a, o, q / 8, q % 8) >= 10
  }

  function Penalty(a: Board, o: int, p: int, e: int, q: nat): nat
    requires q < 64
  {
    if !Counted(a, o, p, e, q) then 0
    else (if Rim(q / 8) && Rim(q % 8) then 10 else 1 + Bit(Rim(q / 8), 2) + Bit(Rim(q % 8), 2))
         + Bit(HeavyReply(a, o, p, e, q), 4)
  }

  function PenaltySum(a: Board, o: int, p: int, e: int, n: nat): nat
    requires n <= 64
  {
    if n == 0 then 0 else PenaltySum(a, o, p, e, n - 1) + Penalty(a, o, p, e, n - 1)
  }

  ghost predicate SomeRim(a: Board, o: int, n: nat)
    requires n <= 64
  {
    exists q: nat :: q < n && RimReply(a, o, q)
  }

  ghost predicate SomeCorner(a: Board, o: int, n: nat)
    requires n <= 64
  {
    exists q: nat :: q < n && CornerReply(a, o, q)
  }

  ghost predicate SomeCounted(a: Board, o: int, p: int, e: int, n: nat)
    requires n <= 64
  {
    exists q: nat :: q < n && Counted(a, o, p, e, q)
  }

  ghost predicate SomeHeavy(a: Board, o: int, p: int, e: int, n: nat)
    requires n <= 64
  {
    exists q: nat :: q < n && HeavyReply(a, o, p, e, q)
  }

  /** The opponent's chances on board a: the summed penalties, cut off at a floor that depends only
      on which kinds of reply exist. */
  ghost function Threat(a: Board, o: int, p: int, e: int): (s: int)
    ensures -29 <= s <= 0
  {
    var floor := Bit(SomeCounted(a, o, p, e, 64), 1) + Bit(SomeRim(a, o, 64), 4)
                 + Bit(SomeHeavy(a, o, p, e, 64), 8) + Bit(SomeCorner(a, o, 64), 16);
    if 0 - PenaltySum(a, o, p, e, 64) < 0 - floor then 0 - floor else 0 - PenaltySum(a, o, p, e, 64)
  }

  /** The rating of a move: the threat it leaves, adjusted by where the square lies. */
  ghost function Eval(b: Board, p: int, o: int, e: int, i: int, j: int): (s: int)
    requires OnBoard(i, j)
    ensures -35 <= s <= 5
    ensures Rim(i) && Rim(j) ==> s >= -24
  {
    var s := Threat(After(b, p, i, j), o, p, e);
    var side := Bit(Rim(i), 1) + Bit(Rim(j), 1);
    var near := Bit(i == 1 || i == 6, 1) + Bit(j == 1 || j == 6, 1);
    if side > 0 then s + side - 7 + Bit(side == 2 || SafeFromRetake(b, p, o, e, i, j), 10)
    else if near > 0 then s - near
    else s + Bit(i == 2 || i == 5, 1) + Bit(j == 2 || j == 5, 1)
  }

  /** The double loop over the opponent's replies. The flags stand for the bits 1, 4, 8 and 16 of the
      variable oside. */
  method Replies(a: array<int>, o: int, p: int, e: int) returns (s: int, f1: bool, f4: bool, f8: bool, f16: bool)
    requires a.Length == 64
    ensures s == 0 - PenaltySum(a[..], o, p, e, 64)
    ensures f1 == SomeCounted(a[..], o, p, e, 64) && f4 == SomeRim(a[..], o, 64)
    ensures f8 == SomeHeavy(a[..], o, p, e, 64) && f16 == SomeCorner(a[..], o, 64)
  {
    hide MoveScore, SafeFromRetake, Rim, PenaltySum, SomeRim, SomeCorner, SomeCounted, SomeHeavy;
    s := 0;
    f1, f4, f8, f16 := false, false, false, false;
    NoReplyYet(a[..], o, p, e);
    for k := 0 to 8
      invariant s == 0 - PenaltySum(a[..], o, p, e, k * 8)
      invariant f1 == SomeCounted(a[..], o, p, e, k * 8) && f4 == SomeRim(a[..], o, k * 8)
      invariant f8 == SomeHeavy(a[..], o, p, e, k * 8) && f16 == SomeCorner(a[..], o, k * 8)
    {
      for l := 0 to 8
        invariant s == 0 - PenaltySum(a[..], o, p, e, k * 8 + l)
        invariant f1 == SomeCounted(a[..], o, p, e, k * 8 + l) && f4 == SomeRim(a[..], o, k * 8 + l)
        invariant f8 == SomeHeavy(a[..], o, p, e, k * 8 + l) && f16 == SomeCorner(a[..], o, k * 8 + l)
      {
        OneMoreReply(a[..], o, p, e, k, l);
        var c := ChkMov(a, o, k, l);
        if c == 0 { continue; }
        var dkl := 1;
        if Rim(k) { dkl := dkl + 2; f4 := true; }
        if Rim(l) { dkl := dkl + 2; f4 := true; }
        if dkl == 5 {
          dkl := 10;
          f16 := true;
        } else {
          var kept := NoTake(a, o, p, e, k, l);
          if !kept { continue; }
        }
        f1 := true;
        s := s - dkl;
        if c >= 10 { s := s - 4; f8 := true; }
      }
    }
  }

  /** The first part of s_move: play the move on a copy and weigh the replies. */
  method WeighReplies(b: array<int>, p: int, o: int, e: int, i: int, j: int) returns (s: int)
    requires b.Length == 64 && OnBoard(i, j)
    ensures s == Threat(After(b[..], p, i, j), o, p, e)
  {
    hide After, PenaltySum, SomeRim, SomeCorner, SomeCounted, SomeHeavy;
    var a := new int[64](k requires 0 <= k < 64 reads b => b[k]);
    assert a[..] == b[..];
    PutMov(a, p, i, j);
    var f1, f4, f8, f16;
    s, f1, f4, f8, f16 := Replies(a, o, p, e);
    var oside := Bit(f1, 1) + Bit(f4, 4) + Bit(f8, 8) + Bit(f16, 16);
    if s < -oside { s := -oside; }
  }

  method SMove(b: array<int>, p: int, o: int, e: int, i: int, j: int) returns (s: int)
    requires b.Length == 64 && OnBoard(i, j)
    ensures s == Eval(b[..], p, o, e, i, j)
    ensures -35 <= s <= 5
  {
    hide SafeFromRetake, After, Threat;
    var side := Bit(Rim(i), 1) + Bit(Rim(j), 1);
    var ok := 0;
    var safe := side == 2;
    if !safe { safe := NoTake(b, p, o, e, i, j); }
    if safe { ok := ok + 1; }
    s := WeighReplies(b, p, o, e, i, j);
    if side > 0 { return s + side - 7 + 10 * ok; }
    if i == 1 || i == 6 { s := s - 1; side := side + 1; }
    if j == 1 || j == 6 { s := s - 1; side := side + 1; }
    if side > 0 { return s; }
    if i == 2 || i == 5 { s := s + 1; }
    if j == 2 || j == 5 { s := s + 1; }
  }

  /** What square (k,l) adds to the sum and to the four flags. */
  lemma OneMoreReply(a: Board, o: int, p: int, e: int, k: int, l: int)
    requires OnBoard(k, l)
    ensures var n, c, corner := Sq(k, l), MoveScore(a, o, k, l), Rim(k) && Rim(l);
            var counted := c > 0 && (corner || SafeFromRetake(a, o, p, e, k, l));
            && (SomeRim(a, o, n + 1) <==> SomeRim(a, o, n) || (c > 0 && (Rim(k) || Rim(l))))
            && (SomeCorner(a, o, n + 1) <==> SomeCorner(a, o, n) || (c > 0 && corner))
            && (SomeCounted(a, o, p, e, n + 1) <==> SomeCounted(a, o, p, e, n) || counted)
            && (SomeHeavy(a, o, p, e, n + 1) <==> SomeHeavy(a, o, p, e, n) || (counted && c >= 10))
            && PenaltySum(a, o, p, e, n + 1) == PenaltySum(a, o, p, e, n)
               + (if !counted then 0
                  else (if corner then 10 else 1 + Bit(Rim(k), 2) + Bit(Rim(l), 2)) + Bit(c >= 10, 4))
  {
    hide MoveScore, SafeFromRetake;
    var n := Sq(k, l);
    assert n / 8 == k && n % 8 == l;
    assert RimReply(a, o, n) <==> MoveScore(a, o, k, l) > 0 && (Rim(k) || Rim(l));
    assert CornerReply(a, o, n) <==> MoveScore(a, o, k, l) > 0 && Rim(k) && Rim(l);
    assert Counted(a, o, p, e, n) <==>
           MoveScore(a, o, k, l) > 0 && ((Rim(k) && Rim(l)) || SafeFromRetake(a, o, p, e, k, l));
    assert HeavyReply(a, o, p, e, n) <==> Counted(a, o, p, e, n) && MoveScore(a, o, k, l) >= 10;
    hide Reply, RimReply, CornerReply, Counted, HeavyReply, Rim;
  }

  lemma NoReplyYet(a: Board, o: int, p: int, e: int)
    ensures !SomeRim(a, o, 0) && !SomeCorner(a, o, 0) && !SomeCounted(a, o, p, e, 0) && !SomeHeavy(a, o, p, e, 0)
    ensures PenaltySum(a, o, p, e, 0) == 0
  {
  }

  // ----- the move table

  datatype Mt = Mt(x: int, y: int, c: int, s: int)

  ghost function Entry(b: Board, p: int, o: int, e: int, x: int, y: int): Mt
    requires OnBoard(x, y)
  {
    Mt(x, y, MoveScore(b, p, x, y), Eval(b, p, o, e, x, y))
  }

  /** The scored moves among the first n squares, row by row. */
  ghost function MoveList(b: Board, p: int, o: int, e: int, n: nat): (l: seq<Mt>)
    requires n <= 64
    ensures |l| <= n
  {
    if n == 0 then []
    else
      var x, y := (n - 1) / 8, (n - 1) % 8;
      MoveList(b, p, o, e, n - 1) + (if MoveScore(b, p, x, y) > 0 then [Entry(b, p, o, e, x, y)] else [])
  }

  /** t is the table entry of a legal move. */
  ghost predicate IsMoveEntry(b: Board, p: int, o: int, e: int, t: Mt) {
    OnBoard(t.x, t.y) && Legal(b, p, t.x, t.y) && t == Entry(b, p, o, e, t.x, t.y)
  }

  ghost predicate ListedBefore(b: Board, p: int, o: int, e: int, t: Mt, n: nat) {
    IsMoveEntry(b, p, o, e, t) && Sq(t.x, t.y) < n
  }

  lemma OneMoreSquare(b: Board, p: int, o: int, e: int, t: Mt, i: int, j: int)
    requires OnBoard(i, j)
    ensures ListedBefore(b, p, o, e, t, Sq(i, j) + 1) <==>
            ListedBefore(b, p, o, e, t, Sq(i, j)) || (MoveScore(b, p, i, j) > 0 && t == Entry(b, p, o, e, i, j))
    ensures t == Entry(b, p, o, e, i, j) ==> !ListedBefore(b, p, o, e, t, Sq(i, j))
  {
    hide MoveScore, Legal, Eval;
    LegalIffScored(b, p, i, j);
    if OnBoard(t.x, t.y) {
      SqInjective(t.x, t.y, i, j);
    }
  }

  lemma SqInjective(x: int, y: int, i: int, j: int)
    requires OnBoard(x, y) && OnBoard(i, j)
    ensures Sq(x, y) == Sq(i, j) <==> x == i && y == j
  {
  }

  lemma {:induction false} MoveListMembers(b: Board, p: int, o: int, e: int, n: nat)
    requires n <= 64
    ensures forall t :: t in MoveList(b, p, o, e, n) <==> ListedBefore(b, p, o, e, t, n)
  {
    hide MoveScore, Eval, Legal, Entry;
    if n > 0 {
      var i, j := (n - 1) / 8, (n - 1) % 8;
      MoveListMembers(b, p, o, e, n - 1);
      MoveListStep(b, p, o, e, i, j);
      hide MoveList, ListedBefore;
      forall t
        ensures t in MoveList(b, p, o, e, n) <==> ListedBefore(b, p, o, e, t, n)
      {
        OneMoreSquare(b, p, o, e, t, i, j);
      }
    }
  }

  lemma {:induction false} MoveListOnce(b: Board, p: int, o: int, e: int, n: nat)
    requires n <= 64
    ensures forall t :: multiset(MoveList(b, p, o, e, n))[t] <= 1
  {
    hide MoveScore, Eval, ListedBefore;
    if n > 0 {
      var i, j := (n - 1) / 8, (n - 1) % 8;
      MoveListOnce(b, p, o, e, n - 1);
      MoveListMembers(b, p, o, e, n - 1);
      MoveListStep(b, p, o, e, i, j);
      hide MoveList, Entry;
      OneMoreSquare(b, p, o, e, Entry(b, p, o, e, i, j), i, j);
      AppendOnce(MoveList(b, p, o, e, n - 1), Entry(b, p, o, e, i, j));
    }
  }

  /** The moves are listed row by row, from left to right. */
  lemma {:induction false} MoveListOrdered(b: Board, p: int, o: int, e: int, n: nat)
    requires n <= 64
    ensures var l := MoveList(b, p, o, e, n);
            && (forall i :: 0 <= i < |l| ==> OnBoard(l[i].x, l[i].y) && 8 * l[i].x + l[i].y < n)
            && (forall i, j :: 0 <= i < j < |l| ==> 8 * l[i].x + l[i].y < 8 * l[j].x + l[j].y)
  {
    hide MoveScore, Eval;
    if n > 0 {
      MoveListOrdered(b, p, o, e, n - 1);
      MoveListStep(b, p, o, e, (n - 1) / 8, (n - 1) % 8);
      hide MoveList, Entry;
    }
  }

  lemma AppendOnce(l: seq<Mt>, t: Mt)
    requires t !in l && forall u :: multiset(l)[u] <= 1
    ensures forall u :: multiset(l + [t])[u] <= 1
  {
    assert t !in multiset(l);
    assert multiset(l + [t]) == multiset(l) + multiset{t};
  }

  /** The table holds exactly the legal moves, each with its score and rating, once each. */
  lemma MoveListExact(b: Board, p: int, o: int, e: int)
    ensures forall t :: t in MoveList(b, p, o, e, 64) <==> IsMoveEntry(b, p, o, e, t)
    ensures forall t :: multiset(MoveList(b, p, o, e, 64))[t] <= 1
  {
    hide MoveList, IsMoveEntry;
    MoveListMembers(b, p, o, e, 64);
    MoveListOnce(b, p, o, e, 64);
    AllListed(b, p, o, e);
  }

  lemma AllListed(b: Board, p: int, o: int, e: int)
    ensures forall t :: ListedBefore(b, p, o, e, t, 64) <==> IsMoveEntry(b, p, o, e, t)
  {
  }

  lemma TableEmptyIff(b: Board, p: int, o: int, e: int)
    ensures MoveList(b, p, o, e, 64) == [] <==> !CanMove(b, p)
  {
    hide Legal, MoveScore, Eval, MoveList;
    MoveListExact(b, p, o, e);
    var l := MoveList(b, p, o, e, 64);
    if CanMove(b, p) {
      var x, y :| OnBoard(x, y) && Legal(b, p, x, y);
      assert IsMoveEntry(b, p, o, e, Entry(b, p, o, e, x, y));
      assert Entry(b, p, o, e, x, y) in l;
    }
    if l != [] {
      assert l[0] in l;
      assert IsMoveEntry(b, p, o, e, l[0]);
    }
  }

  lemma MoveListStep(b: Board, p: int, o: int, e: int, i: int, j: int)
    requires OnBoard(i, j)
    ensures MoveList(b, p, o, e, 0) == []
    ensures var c := MoveScore(b, p, i, j);
            MoveList(b, p, o, e, Sq(i, j) + 1) ==
            MoveList(b, p, o, e, Sq(i, j)) + (if c > 0 then [Entry(b, p, o, e, i, j)] else [])
    ensures Entry(b, p, o, e, i, j) == Mt(i, j, MoveScore(b, p, i, j), Eval(b, p, o, e, i, j))
  {
    hide MoveScore, Eval;
    assert Sq(i, j) / 8 == i && Sq(i, j) % 8 == j;
  }

  /** The row-by-row fill. A square that is no move only leaves its zero score in the entry that the
      next move will take. */
  method FillMt(b: array<int>, p: int, o: int, e: int, t: array<Mt>) returns (k: nat)
    requires b.Length == 64 && t.Length == 64
    modifies t
    ensures k <= 64 && t[..k] == MoveList(b[..], p, o, e, 64)
    ensures forall q :: k < q < 64 ==> t[q] == old(t[q])
  {
    hide MoveScore, Eval, MoveList, Entry;
    k := 0;
    MoveListStep(b[..], p, o, e, 0, 0);
    for i := 0 to 8
      invariant k <= i * 8 && t[..k] == MoveList(b[..], p, o, e, i * 8)
      invariant forall q :: k < q < 64 ==> t[q] == old(t[q])
    {
      for j := 0 to 8
        invariant k <= i * 8 + j && t[..k] == MoveList(b[..], p, o, e, i * 8 + j)
        invariant forall q :: k < q < 64 ==> t[q] == old(t[q])
      {
        MoveListStep(b[..], p, o, e, i, j);
        ghost var done := t[..k];
        var c := ChkMov(b, p, i, j);
        t[k] := t[k].(c := c);
        if c != 0 {
          var s := SMove(b, p, o, e, i, j);
          t[k] := t[k].(x := i, y := j, s := s);
          k := k + 1;
          assert t[..k] == done + [Mt(i, j, c, s)];
        }
      }
    }
  }

  /** The letter shown for a rating: 'F' minus it, but never beyond 'Z'. */
  function Letter(s: int): int { if 70 - s <= 90 then 70 - s else 90 }

  /** Board b0 with the letters of the moves in l laid over it. */
  ghost predicate Lettered(b0: Board, p: int, o: int, e: int, l: seq<Mt>, a: seq<int>) {
    && |a| == 64
    && forall x, y :: OnBoard(x, y) ==>
         var t := Entry(b0, p, o, e, x, y);
         a[Sq(x, y)] == (if IsMoveEntry(b0, p, o, e, t) && t in l then Letter(t.s) else b0[Sq(x, y)])
  }

  lemma OneMoreLetter(b0: Board, p: int, o: int, e: int, l: seq<Mt>, t: Mt, a: seq<int>)
    requires IsMoveEntry(b0, p, o, e, t) && Lettered(b0, p, o, e, l, a)
    ensures Lettered(b0, p, o, e, l + [t], a[Sq(t.x, t.y) := Letter(t.s)])
  {
    hide MoveScore, Eval, Legal, Letter;
    forall x, y | OnBoard(x, y)
      ensures Entry(b0, p, o, e, x, y) in l + [t] <==>
              Entry(b0, p, o, e, x, y) in l || (x == t.x && y == t.y)
    {
    }
  }

  /** What analyze shows: every legal move's square carries a letter, 'A' for the best rating, 5, and
      one letter later for each point below, up to 'Z'; all other squares and the caller's board stay
      as they are. */
  method Analyze(b: array<int>, p: int, o: int, e: int) returns (shown: seq<int>)
    requires b.Length == 64
    ensures |shown| == 64
    ensures forall x, y :: OnBoard(x, y) && Legal(b[..], p, x, y) ==>
              var below := 5 - Eval(b[..], p, o, e, x, y);
              shown[Sq(x, y)] == if below <= 25 then 'A' as int + below else 'Z' as int
    ensures forall x, y :: OnBoard(x, y) && Legal(b[..], p, x, y) ==> 65 <= shown[Sq(x, y)] <= 90
    ensures forall x, y :: OnBoard(x, y) && !Legal(b[..], p, x, y) ==> shown[Sq(x, y)] == b[Sq(x, y)]
  {
    hide MoveScore, Eval, Legal, Lettered, MoveList;
    var t := new Mt[64](_ => Mt(0, 0, 0, 0));
    var k := FillMt(b, p, o, e, t);
    var a := new int[64](q requires 0 <= q < 64 reads b => b[q]);
    ghost var b0: Board := b[..];
    ghost var l := t[..k];
    MoveListExact(b0, p, o, e);
    assert a[..] == b0;
    NothingLettered(b0, p, o, e);
    for i := 0 to k
      invariant b[..] == b0 && t[..k] == l
      invariant Lettered(b0, p, o, e, l[..i], a[..])
    {
      assert t[i] == l[i] && l[i] in l;
      assert IsMoveEntry(b0, p, o, e, l[i]);
      var c := 70 - t[i].s;
      OneMoreLetter(b0, p, o, e, l[..i], l[i], a[..]);
      assert l[..i + 1] == l[..i] + [l[i]];
      a[t[i].x * 8 + t[i].y] := if c <= 90 then c else 90;
    }
    assert l[..k] == l;
    AllLettered(b0, p, o, e, a[..]);
    return a[..];
  }

  lemma NothingLettered(b0: Board, p: int, o: int, e: int)
    ensures Lettered(b0, p, o, e, [], b0)
  {
  }

  lemma AllLettered(b0: Board, p: int, o: int, e: int, a: seq<int>)
    requires Lettered(b0, p, o, e, MoveList(b0, p, o, e, 64), a)
    ensures forall x, y :: OnBoard(x, y) ==>
              if Legal(b0, p, x, y) then a[Sq(x, y)] == Letter(Eval(b0, p, o, e, x, y)) && 65 <= a[Sq(x, y)] <= 90
              else a[Sq(x, y)] == b0[Sq(x, y)]
  {
    hide MoveScore, Eval, Legal;
    MoveListExact(b0, p, o, e);
    forall x, y | OnBoard(x, y)
      ensures IsMoveEntry(b0, p, o, e, Entry(b0, p, o, e, x, y)) <==> Legal(b0, p, x, y)
    {
    }
  }

  /** In the rules' terms: on a three-colour board a reply counts when it is legal and either takes a
      corner or puts down a piece that the mover could not flip back at once. */
  lemma CountedMeaning(a: Board, o: int, p: int, k: int, l: int)
    requires ThreeColour(a) && IsSide(o) && p == Opponent(o) && OnBoard(k, l)
    ensures Counted(a, o, p, EMPTY, Sq(k, l)) <==>
            Legal(a, o, k, l) && ((Rim(k) && Rim(l)) || !Retakable(a[Sq(k, l) := o], p, k, l))
  {
    hide SafeFromRetake, Retakable, MoveScore;
    var q := Sq(k, l);
    assert q / 8 == k && q % 8 == l;
    LegalIffScored(a, o, k, l);
    if Legal(a, o, k, l) {
      NoTakeIsExact(a, o, p, k, l);
    }
  }
}
