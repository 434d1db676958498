/**
 * Ranking of scored records: order by score, highest first, then by a
 * secondary key, highest first; keep the first N.
 */
module Ranking {

  const TopCount: nat := 15

  /** The sort key of a record: the score, then the tie-break value. */
  datatype Rank = Rank(score: int, tieBreak: real)

  /** `a` may precede `b` in a descending order by (score, tieBreak). */
  predicate Outranks(a: Rank, b: Rank) {
    a.score > b.score || (a.score == b.score && a.tieBreak >= b.tieBreak)
  }

  ghost predicate SortedBy<T>(s: seq<T>, rank: T -> Rank) {
    forall i, j :: 0 <= i < j < |s| ==> Outranks(rank(s[i]), rank(s[j]))
  }

  /** Every record of `s` ranks at most `b`. */
  ghost predicate AllBelow<T>(b: Rank, s: seq<T>, rank: T -> Rank) {
    forall k :: 0 <= k < |s| ==> Outranks(b, rank(s[k]))
  }

  /** Insert `x` into a list sorted by `rank`, before the first record it outranks. */
  function Insert<T>(x: T, s: seq<T>, rank: T -> Rank): (r: seq<T>)
    ensures multiset(r) == multiset(s) + multiset{x}
  {
    if s == [] then [x]
    else if Outranks(rank(x), rank(s[0])) then [x] + s
    else
      assert s == [s[0]] + s[1..];
      [s[0]] + Insert(x, s[1..], rank)
  }

  /** A bound on `x` and on every record of `s` bounds the result of inserting. */
  lemma {:induction false} InsertBelow<T>(x: T, s: seq<T>, rank: T -> Rank, b: Rank)
    requires Outranks(b, rank(x)) && AllBelow(b, s, rank)
    ensures AllBelow(b, Insert(x, s, rank), rank)
  {
    if s != [] && !Outranks(rank(x), rank(s[0])) {
      InsertBelow(x, s[1..], rank, b);
    }
  }

  /** Inserting into a sorted list keeps it sorted. */
  lemma {:induction false} InsertSorted<T>(x: T, s: seq<T>, rank: T -> Rank)
    requires SortedBy(s, rank)
    ensures SortedBy(Insert(x, s, rank), rank)
  {
    if s != [] {
      if Outranks(rank(x), rank(s[0])) {
        OutranksTransitive();
      } else {
        InsertSorted(x, s[1..], rank);
        InsertBelow(x, s[1..], rank, rank(s[0]));
      }
    }
  }

  lemma OutranksTransitive()
    ensures forall a, b, c :: Outranks(a, b) && Outranks(b, c) ==> Outranks(a, c)
  {
  }

  /** A permutation of `s` ordered by `rank`, highest first. */
  function SortDesc<T>(s: seq<T>, rank: T -> Rank): (r: seq<T>)
    ensures SortedBy(r, rank)
    ensures multiset(r) == multiset(s)
  {
    if s == [] then []
    else
      assert s == [s[0]] + s[1..];
      var rest := SortDesc(s[1..], rank);
      InsertSorted(s[0], rest, rank);
      Insert(s[0], rest, rank)
  }

  /** The first `n` records (all of them when there are fewer). */
  function TopN<T>(s: seq<T>, n: nat): (r: seq<T>)
    ensures |r| == if |s| < n then |s| else n
    ensures forall i :: 0 <= i < |r| ==> r[i] == s[i]
  {
    if |s| < n then s else s[..n]
  }

  /**
   * In a sorted list a strictly higher score always comes first, and among
   * equal scores a strictly higher tie-break value comes first.
   */
  lemma SortedPrecedence<T>(s: seq<T>, rank: T -> Rank, i: nat, j: nat)
    requires SortedBy(s, rank)
    requires i < |s| && j < |s|
    ensures rank(s[i]).score > rank(s[j]).score ==> i < j
    ensures rank(s[i]).score == rank(s[j]).score && rank(s[i]).tieBreak > rank(s[j]).tieBreak ==> i < j
  {
  }

  /** Cutting a sorted list keeps it sorted, and every kept record outranks every dropped one. */
  lemma TopNKeepsBest<T>(s: seq<T>, n: nat, rank: T -> Rank)
    requires SortedBy(s, rank)
    ensures SortedBy(TopN(s, n), rank)
    ensures forall i, j :: 0 <= i < |TopN(s, n)| <= j < |s| ==> Outranks(rank(TopN(s, n)[i]), rank(s[j]))
  {
  }

  /**
   * Of a sorted list, the cut keeps a sub-multiset of the records, and every
   * record left out is outranked by every record kept.
   */
  lemma {:induction false} TopNLeavesWorse<T>(s: seq<T>, n: nat, rank: T -> Rank)
    requires SortedBy(s, rank)
    ensures multiset(TopN(s, n)) <= multiset(s)
    ensures forall x, k :: x in multiset(s) - multiset(TopN(s, n)) && 0 <= k < |TopN(s, n)| ==>
      Outranks(rank(TopN(s, n)[k]), rank(x))
  {
    var top := TopN(s, n);
    var rest := s[|top|..];
    assert s == top + rest;
    assert multiset(s) == multiset(top) + multiset(rest);
    forall x, k | x in multiset(s) - multiset(top) && 0 <= k < |top|
      ensures Outranks(rank(top[k]), rank(x))
    {
      assert x in multiset(rest);
      var j :| 0 <= j < |rest| && rest[j] == x;
      assert s[|top| + j] == x;
    }
  }
}
