/** How the machine chooses: cmpmov orders the move table, qsort sorts it, and my_mov draws one of
    the entries that tie for first place (examples/othello.c). */
module OthelloChoice {
  import opened OthelloRays
  import opened OthelloEval

  function CmpMov(a: Mt, b: Mt): int {
    if a.s > b.s then -1
    else if a.s < b.s then 1
    else if a.c > b.c then -1
    else if a.c < b.c then 1
    else 0
  }

  /** What qsort asks of its comparator: cmpmov is a total preorder, best rating first and, among
      equal ratings, best score first. */
  lemma CmpMovIsPreorder(a: Mt, b: Mt, c: Mt)
    ensures CmpMov(a, b) == -CmpMov(b, a)
    ensures CmpMov(a, b) <= 0 && CmpMov(b, c) <= 0 ==> CmpMov(a, c) <= 0
    ensures CmpMov(a, b) <= 0 <==> a.s > b.s || (a.s == b.s && a.c >= b.c)
    ensures CmpMov(a, b) == 0 <==> a.s == b.s && a.c == b.c
  {
  }

  predicate Sorted(t: seq<Mt>) { forall i, j :: 0 <= i < j < |t| ==> CmpMov(t[i], t[j]) <= 0 }

  function Insert(t: Mt, l: seq<Mt>): (r: seq<Mt>)
    ensures multiset(r) == multiset(l) + multiset{t} && |r| == |l| + 1
  {
    if l == [] then [t]
    else if CmpMov(t, l[0]) <= 0 then [t] + l
    else
      assert l == [l[0]] + l[1..];
      [l[0]] + Insert(t, l[1..])
  }

  lemma {:induction false} InsertSorted(t: Mt, l: seq<Mt>)
    requires Sorted(l)
    ensures Sorted(Insert(t, l))
  {
    hide CmpMov;
    if l == [] {
    } else if CmpMov(t, l[0]) <= 0 {
      forall i | 0 <= i < |l|
        ensures CmpMov(t, l[i]) <= 0
      {
        if i > 0 { CmpMovIsPreorder(t, l[0], l[i]); }
      }
    } else {
      InsertSorted(t, l[1..]);
      CmpMovIsPreorder(t, l[0], l[0]);
      var r := Insert(t, l[1..]);
      forall i | 0 <= i < |r|
        ensures CmpMov(l[0], r[i]) <= 0
      {
        assert r[i] in multiset(r);
        assert r[i] == t || r[i] in l[1..];
      }
    }
  }

  function InOrder(l: seq<Mt>): (r: seq<Mt>)
    ensures multiset(r) == multiset(l) && |r| == |l|
  {
    if l == [] then []
    else
      assert l == [l[0]] + l[1..];
      Insert(l[0], InOrder(l[1..]))
  }

  lemma {:induction false} InOrderSorted(l: seq<Mt>)
    ensures Sorted(InOrder(l))
  {
    if l != [] {
      InOrderSorted(l[1..]);
      InsertSorted(l[0], InOrder(l[1..]));
    }
  }

  /** The C library's qsort, promising no more than section 7.22.5.2 of ISO/IEC 9899:2011: the first
      k entries become a sorted permutation of themselves, with ties in an unspecified order. */
  method QSort(t: array<Mt>, k: nat)
    requires k <= t.Length
    modifies t
    ensures Sorted(t[..k]) && multiset(t[..k]) == multiset(old(t[..k]))
    ensures t[k..] == old(t[k..])
  {
    ghost var before := t[..];
    hide Sorted;
    InOrderSorted(t[..k]);
    var r := InOrder(t[..k]);
    for i := 0 to k
      invariant t[..i] == r[..i] && t[k..] == before[k..]
    {
      t[i] := r[i];
    }
    assert t[..k] == r;
  }

  /** (x,y) is legal and no legal move beats its rating, or its score at equal rating. */
  ghost predicate Best(b: Board, p: int, o: int, e: int, x: int, y: int) {
    && OnBoard(x, y) && Legal(b, p, x, y)
    && forall x', y' :: OnBoard(x', y') && Legal(b, p, x', y') ==>
         CmpMov(Entry(b, p, o, e, x, y), Entry(b, p, o, e, x', y')) <= 0
  }

  /** A best move in the rating's and the score's own terms. */
  lemma BestMeans(b: Board, p: int, o: int, e: int, x: int, y: int)
    ensures Best(b, p, o, e, x, y) <==>
            && OnBoard(x, y) && Legal(b, p, x, y)
            && forall x', y' :: OnBoard(x', y') && Legal(b, p, x', y') ==>
                 || Eval(b, p, o, e, x, y) > Eval(b, p, o, e, x', y')
                 || (Eval(b, p, o, e, x, y) == Eval(b, p, o, e, x', y')
                     && MoveScore(b, p, x, y) >= MoveScore(b, p, x', y'))
  {
    hide Legal, Eval, MoveScore;
  }

  /** ties lists every best move once. */
  ghost predicate ListsBest(b: Board, p: int, o: int, e: int, ties: seq<Mt>) {
    && (forall i :: 0 <= i < |ties| ==> IsMoveEntry(b, p, o, e, ties[i]) && Best(b, p, o, e, ties[i].x, ties[i].y))
    && (forall x, y :: OnBoard(x, y) && Best(b, p, o, e, x, y) ==> Entry(b, p, o, e, x, y) in ties)
    && (forall i, j :: 0 <= i < j < |ties| ==> ties[i] != ties[j])
  }

  lemma NoDuplicates(l: seq<Mt>, i: nat, j: nat)
    requires i < j < |l| && forall t :: multiset(l)[t] <= 1
    ensures l[i] != l[j]
  {
    assert l == l[..j] + l[j..];
    assert l[i] in l[..j] && l[j] in l[j..];
    assert multiset(l)[l[i]] == multiset(l[..j])[l[i]] + multiset(l[j..])[l[i]];
  }

  lemma PermutedTable(b: Board, p: int, o: int, e: int, l: seq<Mt>)
    requires multiset(l) == multiset(MoveList(b, p, o, e, 64))
    ensures forall t :: t in l <==> IsMoveEntry(b, p, o, e, t)
    ensures forall t :: multiset(l)[t] <= 1
  {
    hide IsMoveEntry, MoveList;
    var list := MoveList(b, p, o, e, 64);
    MoveListExact(b, p, o, e);
    forall t
      ensures t in l <==> IsMoveEntry(b, p, o, e, t)
    {
      assert t in l <==> t in multiset(l);
      assert t in list <==> t in multiset(list);
    }
  }

  lemma MoveEntryBelow(b: Board, p: int, o: int, e: int, t: Mt)
    ensures IsMoveEntry(b, p, o, e, t) ==>
              OnBoard(t.x, t.y) && Legal(b, p, t.x, t.y) && t == Entry(b, p, o, e, t.x, t.y)
  {
  }

  lemma TieIsBest(b: Board, p: int, o: int, e: int, l: seq<Mt>, q: nat)
    requires Sorted(l) && forall t :: t in l <==> IsMoveEntry(b, p, o, e, t)
    requires q < |l| && CmpMov(l[q], l[0]) == 0
    ensures IsMoveEntry(b, p, o, e, l[q]) && Best(b, p, o, e, l[q].x, l[q].y)
  {
    hide CmpMov, IsMoveEntry, Legal, Entry;
    assert l[q] in l;
    MoveEntryBelow(b, p, o, e, l[q]);
    forall x, y | OnBoard(x, y) && Legal(b, p, x, y)
      ensures CmpMov(l[q], Entry(b, p, o, e, x, y)) <= 0
    {
      EntryAt(b, p, o, e, x, y);
      var j :| 0 <= j < |l| && l[j] == Entry(b, p, o, e, x, y);
      CmpMovIsPreorder(l[q], l[0], l[j]);
    }
  }

  lemma BestIsTie(b: Board, p: int, o: int, e: int, l: seq<Mt>, i: nat, x: int, y: int)
    requires Sorted(l) && forall t :: t in l <==> IsMoveEntry(b, p, o, e, t)
    requires 1 <= i <= |l| && (i < |l| ==> CmpMov(l[i], l[0]) != 0)
    requires OnBoard(x, y) && Best(b, p, o, e, x, y)
    ensures Entry(b, p, o, e, x, y) in l[..i]
  {
    hide CmpMov, IsMoveEntry, Legal, Entry;
    var t := Entry(b, p, o, e, x, y);
    EntryAt(b, p, o, e, x, y);
    assert t in l;
    var j :| 0 <= j < |l| && l[j] == t;
    assert l[0] in l;
    MoveEntryBelow(b, p, o, e, l[0]);
    assert CmpMov(t, l[0]) <= 0;
    if j >= i {
      SquashedBetween(l, i, j);
    }
  }

  /** In a sorted table nothing strictly later than the first lies before an entry as good as it. */
  lemma SquashedBetween(l: seq<Mt>, i: nat, j: nat)
    requires Sorted(l) && i <= j < |l| && CmpMov(l[j], l[0]) <= 0
    ensures CmpMov(l[i], l[0]) == 0
  {
    hide CmpMov;
    CmpMovIsPreorder(l[i], l[j], l[0]);
    CmpMovIsPreorder(l[i], l[i], l[i]);
    CmpMovIsPreorder(l[i], l[0], l[0]);
  }

  /** The entries that tie with the first of a sorted move table are exactly the best moves. */
  lemma TiesAreBest(b: Board, p: int, o: int, e: int, l: seq<Mt>, i: nat)
    requires Sorted(l) && multiset(l) == multiset(MoveList(b, p, o, e, 64))
    requires 1 <= i <= |l|
    requires forall q :: 0 <= q < i ==> CmpMov(l[q], l[0]) == 0
    requires i < |l| ==> CmpMov(l[i], l[0]) != 0
    ensures ListsBest(b, p, o, e, l[..i])
  {
    hide CmpMov, IsMoveEntry, Entry, Best, Sorted, MoveList;
    PermutedTable(b, p, o, e, l);
    forall q | 0 <= q < i
      ensures IsMoveEntry(b, p, o, e, l[q]) && Best(b, p, o, e, l[q].x, l[q].y)
    {
      TieIsBest(b, p, o, e, l, q);
    }
    forall x, y | OnBoard(x, y) && Best(b, p, o, e, x, y)
      ensures Entry(b, p, o, e, x, y) in l[..i]
    {
      BestIsTie(b, p, o, e, l, i, x, y);
    }
    forall q, j | 0 <= q < j < i
      ensures l[..i][q] != l[..i][j]
    {
      NoDuplicates(l, q, j);
    }
  }

  lemma EntryAt(b: Board, p: int, o: int, e: int, x: int, y: int)
    requires OnBoard(x, y) && Legal(b, p, x, y)
    ensures IsMoveEntry(b, p, o, e, Entry(b, p, o, e, x, y))
    ensures Entry(b, p, o, e, x, y).x == x && Entry(b, p, o, e, x, y).y == y
  {
  }

  /** rnd is the value rand() returns. The answer is 0 exactly when no move is legal. Otherwise the
      move is the rnd-th, cyclically, of a list of all best moves, so it is always best and every
      best move is drawn for some rnd. */
  method MyMov(b: array<int>, p: int, o: int, e: int, rnd: nat)
    returns (found: int, m: int, n: int, ghost ties: seq<Mt>)
    requires b.Length == 64
    ensures found == 0 || found == 1
    ensures found == 1 <==> CanMove(b[..], p)
    ensures found == 1 ==> Best(b[..], p, o, e, m, n)
    // no legal move is rated higher, or as high with a higher score
    ensures found == 1 ==>
              && OnBoard(m, n) && Legal(b[..], p, m, n)
              && forall x, y :: OnBoard(x, y) && Legal(b[..], p, x, y) ==>
                   || Eval(b[..], p, o, e, m, n) > Eval(b[..], p, o, e, x, y)
                   || (Eval(b[..], p, o, e, m, n) == Eval(b[..], p, o, e, x, y)
                       && MoveScore(b[..], p, m, n) >= MoveScore(b[..], p, x, y))
    ensures found == 1 ==> |ties| > 0 && ListsBest(b[..], p, o, e, ties)
                           && m == ties[rnd % |ties|].x && n == ties[rnd % |ties|].y
  {
    hide Legal, Entry, Best, ListsBest, IsMoveEntry, Sorted, CmpMov, MoveList, CanMove, Eval, MoveScore;
    var t := new Mt[64](_ => Mt(0, 0, 0, 0));
    ghost var b0: Board := b[..];
    var k := FillMt(b, p, o, e, t);
    assert b[..] == b0;
    TableEmptyIff(b0, p, o, e);
    ties := [];
    if k == 0 { return 0, 0, 0, ties; }
    assert t[..k] == MoveList(b0, p, o, e, 64);
    QSort(t, k);
    assert b[..] == b0;
    ghost var l := t[..k];
    var i := 1;
    CmpMovIsPreorder(l[0], l[0], l[0]);
    while i < k
      invariant 1 <= i <= k && t[..k] == l
      invariant forall q :: 0 <= q < i ==> CmpMov(l[q], l[0]) == 0
    {
      CmpMovIsPreorder(l[i], l[0], l[0]);
      assert t[i] == l[i] && t[0] == l[0];
      if t[i].s != t[0].s || t[i].c != t[0].c { break; }
      i := i + 1;
    }
    TiesAreBest(b0, p, o, e, l, i);
    ties := l[..i];
    k := rnd % i;
    assert ties[k] == l[k] == t[k];
    TieFrom(b0, p, o, e, ties, k);
    BestMeans(b0, p, o, e, t[k].x, t[k].y);
    return 1, t[k].x, t[k].y, ties;
  }

  lemma TieFrom(b: Board, p: int, o: int, e: int, ties: seq<Mt>, k: nat)
    requires k < |ties| && ListsBest(b, p, o, e, ties)
    ensures Best(b, p, o, e, ties[k].x, ties[k].y)
  {
  }
}
