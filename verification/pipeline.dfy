/**
 * The scripts' stage loops: call a per-ticker step on each input in turn and
 * keep the results that are not None, in input order.
 */
module Pipeline {
  import opened Wrappers

  /** `f` applied to each element, in order. */
  function MapSeq<A, B>(f: A -> B, s: seq<A>): (r: seq<B>)
    ensures |r| == |s|
    ensures forall i :: 0 <= i < |s| ==> r[i] == f(s[i])
  {
    seq(|s|, i requires 0 <= i < |s| => f(s[i]))
  }

  /** The present values of `s`, in the order they occur. */
  function Somes<T>(s: seq<Option<T>>): (r: seq<T>)
    ensures |r| <= |s|
  {
    if s == [] then [] else (if s[0].Some? then [s[0].value] else []) + Somes(s[1..])
  }

  lemma MapSeqSnoc<A, B>(f: A -> B, s: seq<A>, i: nat)
    requires i < |s|
    ensures MapSeq(f, s[..i + 1]) == MapSeq(f, s[..i]) + [f(s[i])]
  {
  }

  /** `a` occurs in `b` in the same order, possibly with elements of `b` left out. */
  predicate IsSubsequence<T(==)>(a: seq<T>, b: seq<T>)
    decreases |b|
  {
    if a == [] then true
    else if b == [] then false
    else (a[0] == b[0] && IsSubsequence(a[1..], b[1..])) || IsSubsequence(a, b[1..])
  }

  /** Keeping or dropping the head of the pattern keeps a subsequence a subsequence. */
  lemma SubsequencePick<T>(keep: bool, x: T, a: seq<T>, b: seq<T>)
    requires IsSubsequence(a, b)
    ensures IsSubsequence((if keep then [x] else []) + a, [x] + b)
  {
    assert ([x] + b)[1..] == b;
    if keep {
      assert ([x] + a)[1..] == a;
    } else {
      assert [] + a == a;
    }
  }

  /** The elements of `s` that satisfy `p`, in order. */
  function Filter<T(!new)>(s: seq<T>, p: T -> bool): (r: seq<T>)
    ensures IsSubsequence(r, s)
  {
    if s == [] then []
    else
      var rest := Filter(s[1..], p);
      SubsequencePick(p(s[0]), s[0], rest, s[1..]);
      assert [s[0]] + s[1..] == s;
      (if p(s[0]) then [s[0]] else []) + rest
  }

  /** An element is kept exactly when it occurs and satisfies `p`. */
  lemma {:induction false} FilterMembership<T(!new)>(s: seq<T>, p: T -> bool, x: T)
    ensures x in Filter(s, p) <==> x in s && p(x)
  {
    if s != [] {
      FilterMembership(s[1..], p, x);
      assert s == [s[0]] + s[1..];
    }
  }

  /** Filtering one more element appends it when it satisfies `p`. */
  lemma {:induction false} FilterSnoc<T(!new)>(s: seq<T>, x: T, p: T -> bool)
    ensures Filter(s + [x], p) == Filter(s, p) + (if p(x) then [x] else [])
  {
    if s == [] {
      assert [] + [x] == [x];
      assert [x][1..] == [];
    } else {
      assert (s + [x])[1..] == s[1..] + [x];
      FilterSnoc(s[1..], x, p);
    }
  }

  /** Keeping the survivors distributes over concatenation. */
  lemma {:induction false} SomesAppend<T>(a: seq<Option<T>>, b: seq<Option<T>>)
    ensures Somes(a + b) == Somes(a) + Somes(b)
  {
    if a == [] {
      assert a + b == b;
    } else {
      var head := if a[0].Some? then [a[0].value] else [];
      assert (a + b)[0] == a[0];
      assert (a + b)[1..] == a[1..] + b;
      SomesAppend(a[1..], b);
      calc {
        Somes(a + b);
        head + Somes(a[1..] + b);
        head + (Somes(a[1..]) + Somes(b));
        (head + Somes(a[1..])) + Somes(b);
      }
    }
  }

  /** A value survives exactly when it was present in the input. */
  lemma {:induction false} SomesMembership<T>(s: seq<Option<T>>, x: T)
    ensures x in Somes(s) <==> Some(x) in s
  {
    if s != [] {
      SomesMembership(s[1..], x);
      assert s == [s[0]] + s[1..];
    }
  }

  /**
   * Survivors keep their input order: the value present at index `i` sits in
   * the output at the number of survivors before it, and a later survivor
   * sits at a strictly later position.
   */
  lemma SomesPosition<T>(s: seq<Option<T>>, i: nat, j: nat)
    requires i < j < |s| && s[i].Some?
    ensures |Somes(s[..i])| < |Somes(s)| && Somes(s)[|Somes(s[..i])|] == s[i].value
    ensures |Somes(s[..i])| < |Somes(s[..j])|
  {
    assert s == s[..i] + [s[i]] + s[i + 1..];
    SomesAppend(s[..i] + [s[i]], s[i + 1..]);
    SomesAppend(s[..i], [s[i]]);
    assert s[..j] == s[..i] + [s[i]] + s[i + 1..j];
    SomesAppend(s[..i] + [s[i]], s[i + 1..j]);
  }

  /** One loop step: the survivors of `f` over a prefix one element longer. */
  lemma SomesMapSnoc<A, B>(f: A -> Option<B>, s: seq<A>, i: nat)
    requires i < |s|
    ensures Somes(MapSeq(f, s[..i + 1])) == Somes(MapSeq(f, s[..i])) + (if f(s[i]).Some? then [f(s[i]).value] else [])
  {
    MapSeqSnoc(f, s, i);
    SomesAppend(MapSeq(f, s[..i]), [f(s[i])]);
    assert [f(s[i])][1..] == [];
  }

  /** A property every present result has holds of every survivor. */
  lemma SomesMapAll<A, B>(f: A -> Option<B>, s: seq<A>, p: B -> bool)
    requires forall k :: 0 <= k < |s| && f(s[k]).Some? ==> p(f(s[k]).value)
    ensures forall y :: y in Somes(MapSeq(f, s)) ==> p(y)
  {
    var results := MapSeq(f, s);
    forall y | y in Somes(results) ensures p(y) {
      SomesMembership(results, y);
      var k :| 0 <= k < |results| && results[k] == Some(y);
    }
  }

  /** Ordered by `key`, highest first. */
  ghost predicate SortedByKey<T>(s: seq<T>, key: T -> int) {
    forall i, j :: 0 <= i < j < |s| ==> key(s[i]) >= key(s[j])
  }

  ghost predicate KeysAtMost<T>(s: seq<T>, key: T -> int, bound: int) {
    forall i :: 0 <= i < |s| ==> key(s[i]) <= bound
  }

  /**
   * A step that keeps the sort key keeps the order: on inputs ordered by key,
   * highest first, the survivors are ordered the same way, and none has a key
   * above the first input's.
   */
  lemma {:induction false} SomesMapKeepsOrder<A, B>(f: A -> Option<B>, keyA: A -> int, keyB: B -> int, s: seq<A>)
    requires forall k :: 0 <= k < |s| && f(s[k]).Some? ==> keyB(f(s[k]).value) == keyA(s[k])
    requires SortedByKey(s, keyA)
    ensures SortedByKey(Somes(MapSeq(f, s)), keyB)
    ensures s != [] ==> KeysAtMost(Somes(MapSeq(f, s)), keyB, keyA(s[0]))
  {
    if s != [] {
      var rest := s[1..];
      assert forall k :: 0 <= k < |rest| ==> rest[k] == s[k + 1];
      SomesMapKeepsOrder(f, keyA, keyB, rest);
      var results := MapSeq(f, s);
      assert results[1..] == MapSeq(f, rest);
      var head := if f(s[0]).Some? then [f(s[0]).value] else [];
      var tail := Somes(MapSeq(f, rest));
      assert Somes(results) == head + tail;
      if rest == [] {
        assert MapSeq(f, rest) == [];
      } else {
        assert keyA(rest[0]) <= keyA(s[0]);
      }
      assert forall i :: 0 <= i < |tail| ==> keyB(tail[i]) <= keyA(s[0]);
      assert forall i :: 0 <= i < |head| ==> keyB(head[i]) == keyA(s[0]);
      var r := head + tail;
      forall i, j | 0 <= i < j < |r| ensures keyB(r[i]) >= keyB(r[j]) {
        if i < |head| {
          assert r[j] == tail[j - |head|];
        } else {
          assert r[i] == tail[i - |head|] && r[j] == tail[j - |head|];
        }
      }
    }
  }
}
