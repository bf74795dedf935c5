/** What the evaluator of examples/othello.c rates, in the rules' terms: the opponent's replies by their
    kinds, and a map of the board. */
module OthelloRating {
  import opened OthelloRays
  import opened OthelloFlips
  import opened OthelloCounts
  import opened OthelloRetake
  import opened OthelloEval

  /** The replies that count, by where they lie, and those of them that take much. */
  datatype Kind = InCorner | OnRim | Inside | Heavy

  predicate Corner(q: nat) { q == 0 || q == 7 || q == 56 || q == 63 }

  predicate AtRim(q: nat) { q / 8 == 0 || q / 8 == 7 || q % 8 == 0 || q % 8 == 7 }

  /** A legal move of o on square q after which p could not flip the new piece back at once. */
  ghost predicate SafeReply(a: Board, o: int, p: int, q: nat)
    requires q < 64
  {
    Legal(a, o, q / 8, q % 8) && !Retakable(a[q := o], p, q / 8, q % 8)
  }

  /** A move that flips a piece on the rim, or ten pieces. */
  ghost predicate TakesMuch(a: Board, o: int, q: nat)
    requires q < 64
  {
    var F := FlipSet(a, o, q / 8, q % 8);
    |F| >= 10 || exists k :: k in F && (k / 8 == 0 || k / 8 == 7 || k % 8 == 0 || k % 8 == 7)
  }

  ghost predicate IsKind(a: Board, o: int, p: int, kind: Kind, q: nat)
    requires q < 64
  {
    match kind
    case InCorner => Corner(q) && Legal(a, o, q / 8, q % 8)
    case OnRim => AtRim(q) && !Corner(q) && SafeReply(a, o, p, q)
    case Inside => !AtRim(q) && SafeReply(a, o, p, q)
    case Heavy => ((Corner(q) && Legal(a, o, q / 8, q % 8)) || (!Corner(q) && SafeReply(a, o, p, q)))
                  && TakesMuch(a, o, q)
  }

  /** The replies of a kind among the first n squares. */
  ghost function Kinds(a: Board, o: int, p: int, kind: Kind, n: nat): set<nat>
    requires n <= 64
  {
    set q: nat | q < n && IsKind(a, o, p, kind, q)
  }

  lemma OneMoreKind(a: Board, o: int, p: int, kind: Kind, n: nat)
    requires n < 64
    ensures |Kinds(a, o, p, kind, n + 1)| == |Kinds(a, o, p, kind, n)| + if IsKind(a, o, p, kind, n) then 1 else 0
  {
    hide IsKind;
    if IsKind(a, o, p, kind, n) {
      assert Kinds(a, o, p, kind, n + 1) == Kinds(a, o, p, kind, n) + {n};
    } else {
      assert Kinds(a, o, p, kind, n + 1) == Kinds(a, o, p, kind, n);
    }
  }

  lemma SquareNames(q: nat)
    requires q < 64
    ensures OnBoard(q / 8, q % 8) && Sq(q / 8, q % 8) == q
    ensures Rim(q / 8) && Rim(q % 8) <==> Corner(q)
    ensures Rim(q / 8) || Rim(q % 8) <==> AtRim(q)
  {
  }

  /** The predicates of the evaluator's loop are the kinds. */
  lemma RepliesAreKinds(a: Board, o: int, p: int, q: nat)
    requires ThreeColour(a) && IsSide(o) && p == Opponent(o) && q < 64
    ensures Counted(a, o, p, EMPTY, q) <==>
            IsKind(a, o, p, InCorner, q) || IsKind(a, o, p, OnRim, q) || IsKind(a, o, p, Inside, q)
    ensures HeavyReply(a, o, p, EMPTY, q) <==> IsKind(a, o, p, Heavy, q)
    ensures CornerReply(a, o, q) <==> IsKind(a, o, p, InCorner, q)
    ensures RimReply(a, o, q) <==> AtRim(q) && Legal(a, o, q / 8, q % 8)
  {
    hide Legal, Retakable, MoveScore, SafeFromRetake, Corner, AtRim, TakesMuch, ThreeColour, Rim;
    SquareNames(q);
    CountedMeaning(a, o, p, q / 8, q % 8);
    LegalIffScored(a, o, q / 8, q % 8);
    CornerIsRim(q);
    if Legal(a, o, q / 8, q % 8) { TakesMuchIsHeavy(a, o, q); }
  }

  lemma CornerIsRim(q: nat)
    requires q < 64
    ensures Corner(q) ==> AtRim(q)
  {
  }

  lemma TakesMuchIsHeavy(a: Board, o: int, q: nat)
    requires q < 64 && Legal(a, o, q / 8, q % 8)
    ensures MoveScore(a, o, q / 8, q % 8) >= 10 <==> TakesMuch(a, o, q)
  {
    hide MoveScore, FlipSet, Legal;
    HeavyScore(a, o, q / 8, q % 8);
  }

  /** What a reply costs: 10 in a corner, 3 on the rim, 1 inside, and 4 more if it takes much. */
  lemma PenaltyByKind(a: Board, o: int, p: int, q: nat)
    requires ThreeColour(a) && IsSide(o) && p == Opponent(o) && q < 64
    ensures Penalty(a, o, p, EMPTY, q) ==
            (if IsKind(a, o, p, InCorner, q) then 10 else 0) + (if IsKind(a, o, p, OnRim, q) then 3 else 0)
            + (if IsKind(a, o, p, Inside, q) then 1 else 0) + (if IsKind(a, o, p, Heavy, q) then 4 else 0)
  {
    RepliesAreKinds(a, o, p, q);
    SquareNames(q);
    CornerIsRim(q);
    hide Legal, Counted, HeavyReply, CornerReply, RimReply, SafeReply, TakesMuch, Corner, AtRim, Rim;
  }

  /** What all replies cost together. */
  lemma {:induction false} PenaltySumByKind(a: Board, o: int, p: int, n: nat)
    requires ThreeColour(a) && IsSide(o) && p == Opponent(o) && n <= 64
    ensures PenaltySum(a, o, p, EMPTY, n) ==
            10 * |Kinds(a, o, p, InCorner, n)| + 3 * |Kinds(a, o, p, OnRim, n)|
            + |Kinds(a, o, p, Inside, n)| + 4 * |Kinds(a, o, p, Heavy, n)|
  {
    hide IsKind, Penalty, ThreeColour;
    if n > 0 {
      PenaltySumByKind(a, o, p, n - 1);
      PenaltyByKind(a, o, p, n - 1);
      OneMoreKind(a, o, p, InCorner, n - 1);
      OneMoreKind(a, o, p, OnRim, n - 1);
      OneMoreKind(a, o, p, Inside, n - 1);
      OneMoreKind(a, o, p, Heavy, n - 1);
      hide Kinds;
    }
  }

  lemma SomeOfKinds(a: Board, o: int, p: int)
    requires ThreeColour(a) && IsSide(o) && p == Opponent(o)
    ensures SomeCounted(a, o, p, EMPTY, 64) <==>
            Kinds(a, o, p, InCorner, 64) != {} || Kinds(a, o, p, OnRim, 64) != {} || Kinds(a, o, p, Inside, 64) != {}
    ensures SomeHeavy(a, o, p, EMPTY, 64) <==> Kinds(a, o, p, Heavy, 64) != {}
    ensures SomeCorner(a, o, 64) <==> Kinds(a, o, p, InCorner, 64) != {}
    ensures SomeRim(a, o, 64) <==> exists q: nat :: q < 64 && AtRim(q) && Legal(a, o, q / 8, q % 8)
  {
    hide IsKind, Counted, HeavyReply, CornerReply, RimReply, AtRim, Legal, ThreeColour;
    forall q: nat | q < 64
      ensures Counted(a, o, p, EMPTY, q) <==> q in Kinds(a, o, p, InCorner, 64) || q in Kinds(a, o, p, OnRim, 64)
                                              || q in Kinds(a, o, p, Inside, 64)
      ensures HeavyReply(a, o, p, EMPTY, q) <==> q in Kinds(a, o, p, Heavy, 64)
      ensures CornerReply(a, o, q) <==> q in Kinds(a, o, p, InCorner, 64)
      ensures RimReply(a, o, q) <==> AtRim(q) && Legal(a, o, q / 8, q % 8)
    {
      RepliesAreKinds(a, o, p, q);
    }
    InKinds(a, o, p, InCorner);
    InKinds(a, o, p, OnRim);
    InKinds(a, o, p, Inside);
    InKinds(a, o, p, Heavy);
    hide Kinds;
  }

  lemma InKinds(a: Board, o: int, p: int, kind: Kind)
    ensures Kinds(a, o, p, kind, 64) != {} <==> exists q: nat :: q < 64 && q in Kinds(a, o, p, kind, 64)
  {
    hide IsKind;
    if Kinds(a, o, p, kind, 64) != {} {
      var q :| q in Kinds(a, o, p, kind, 64);
    }
  }

  /** The threat in the rules' terms. A counted reply costs 10 in a corner, 3 on the rim and 1 inside,
      and 4 more if it takes much; but together the replies cost no more than 1 if any counts, 4 more if
      any legal one lies on the rim, 8 more if any takes much and 16 more if any is a corner. */
  lemma ThreatOfReplies(a: Board, o: int, p: int)
    requires ThreeColour(a) && IsSide(o) && p == Opponent(o)
    ensures var corner, rim := Kinds(a, o, p, InCorner, 64), Kinds(a, o, p, OnRim, 64);
            var inside, heavy := Kinds(a, o, p, Inside, 64), Kinds(a, o, p, Heavy, 64);
            var cost := 10 * |corner| + 3 * |rim| + |inside| + 4 * |heavy|;
            var cap := (if corner != {} || rim != {} || inside != {} then 1 else 0)
                       + (if exists q: nat :: q < 64 && AtRim(q) && Legal(a, o, q / 8, q % 8) then 4 else 0)
                       + (if heavy != {} then 8 else 0) + (if corner != {} then 16 else 0);
            Threat(a, o, p, EMPTY) == -(if cost < cap then cost else cap)
  {
    PenaltySumByKind(a, o, p, 64);
    SomeOfKinds(a, o, p);
    hide Kinds, PenaltySum, SomeCounted, SomeRim, SomeHeavy, SomeCorner, AtRim, Legal, ThreeColour;
  }

  /** Without a legal reply there is no threat. */
  lemma NoReplyNoThreat(a: Board, o: int, p: int)
    requires ThreeColour(a) && IsSide(o) && p == Opponent(o) && !CanMove(a, o)
    ensures Threat(a, o, p, EMPTY) == 0
  {
    hide Legal, Retakable, ThreeColour;
    forall kind
      ensures Kinds(a, o, p, kind, 64) == {}
    {
    }
    hide IsKind;
    ThreatOfReplies(a, o, p);
  }

  /** The rating of a legal move as a map of the board: beside the threat that it leaves, 5 in a corner;
      elsewhere on the rim 4 if the opponent could not flip the piece back at once, and else -6; -1 for
      each coordinate next to the rim; and with neither, 1 for each coordinate two steps from the rim. */
  lemma RatingMap(b: Board, p: int, i: int, j: int)
    requires ThreeColour(b) && IsSide(p) && Legal(b, p, i, j)
    ensures OnBoard(i, j)
    ensures var o := Opponent(p);
            var beside := Eval(b, p, o, EMPTY, i, j) - Threat(After(b, p, i, j), o, p, EMPTY);
            beside ==
            if (i == 0 || i == 7) && (j == 0 || j == 7) then 5
            else if i == 0 || i == 7 || j == 0 || j == 7 then
              (if Retakable(b[Sq(i, j) := p], o, i, j) then -6 else 4)
            else if i == 1 || i == 6 then (if j == 1 || j == 6 then -2 else -1)
            else if j == 1 || j == 6 then -1
            else (if i == 2 || i == 5 then 1 else 0) + (if j == 2 || j == 5 then 1 else 0)
  {
    LegalSquareEmpty(b, p, i, j);
    NoTakeIsExact(b, p, Opponent(p), i, j);
    hide SafeFromRetake, Retakable, Legal, ThreeColour, After, Threat;
  }

  /** The map alone, where the opponent has no legal reply. */
  lemma RatingWithoutReply(b: Board, p: int, i: int, j: int)
    requires ThreeColour(b) && IsSide(p) && Legal(b, p, i, j)
    requires OnBoard(i, j) && !CanMove(After(b, p, i, j), Opponent(p))
    ensures var o := Opponent(p);
            Eval(b, p, o, EMPTY, i, j) ==
            if (i == 0 || i == 7) && (j == 0 || j == 7) then 5
            else if i == 0 || i == 7 || j == 0 || j == 7 then
              (if Retakable(b[Sq(i, j) := p], o, i, j) then -6 else 4)
            else if i == 1 || i == 6 then (if j == 1 || j == 6 then -2 else -1)
            else if j == 1 || j == 6 then -1
            else (if i == 2 || i == 5 then 1 else 0) + (if j == 2 || j == 5 then 1 else 0)
  {
    hide Legal, Eval, Threat, Retakable, ThreeColour, CanMove, After;
    LegalSquareEmpty(b, p, i, j);
    RatingMap(b, p, i, j);
    MoveCounts(b, p, i, j);
    NoReplyNoThreat(After(b, p, i, j), Opponent(p), p);
  }
}
