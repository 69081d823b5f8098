/** The list operations of `java.util.List` that the auction house relies on:
    `remove(Object)` (first occurrence only) and the filtering done by a
    probe loop followed by `removeAll`. */
module Seqs {

  /** Position of the first occurrence of `x` in `s`. */
  function FirstIndex<T(==)>(s: seq<T>, x: T): (k: nat)
    requires x in s
    ensures k < |s| && s[k] == x
    ensures forall j :: 0 <= j < k ==> s[j] != x
  {
    if s[0] == x then 0 else 1 + FirstIndex(s[1..], x)
  }

  /** `List.remove(Object)`: drops the first occurrence of `x`, if any, and
      keeps every other element in its order. */
  function RemoveFirst<T(==)>(s: seq<T>, x: T): (r: seq<T>)
    ensures x !in s ==> r == s
    ensures x in s ==> |r| == |s| - 1 && multiset(r) == multiset(s) - multiset{x}
    ensures x in s ==> var k := FirstIndex(s, x); r[..k] == s[..k] && r[k..] == s[k + 1..]
  {
    if x in s then
      var k := FirstIndex(s, x);
      assert s == s[..k] + [s[k]] + s[k + 1..];
      s[..k] + s[k + 1..]
    else s
  }

  /** The elements of `s`, in their order, whose membership in `p` equals `inside`. */
  function Filter<T(==, !new)>(s: seq<T>, p: set<T>, inside: bool): (r: seq<T>)
    ensures |r| <= |s|
    ensures forall x :: x in r <==> x in s && (x in p) == inside
  {
    if s == [] then []
    else (if (s[0] in p) == inside then [s[0]] else []) + Filter(s[1..], p, inside)
  }

  /** Each kept element occurs as often as in `s`, each dropped one not at all. */
  lemma {:induction false} FilterCount<T(!new)>(s: seq<T>, p: set<T>, inside: bool, x: T)
    ensures multiset(Filter(s, p, inside))[x] == if (x in p) == inside then multiset(s)[x] else 0
  {
    if s != [] {
      assert s == [s[0]] + s[1..];
      FilterCount(s[1..], p, inside, x);
    }
  }

  /** Filtering a list grown by one element, as a loop over the list does. */
  lemma {:induction false} FilterSnoc<T(!new)>(s: seq<T>, x: T, p: set<T>, inside: bool)
    ensures Filter(s + [x], p, inside) == Filter(s, p, inside) + (if (x in p) == inside then [x] else [])
  {
    if s != [] {
      var head := if (s[0] in p) == inside then [s[0]] else [];
      assert (s + [x])[0] == s[0];
      assert (s + [x])[1..] == s[1..] + [x];
      assert Filter(s + [x], p, inside) == head + Filter(s[1..] + [x], p, inside);
      FilterSnoc(s[1..], x, p, inside);
      assert Filter(s, p, inside) == head + Filter(s[1..], p, inside);
    }
  }

  /** Filtering keeps order: the survivors of a concatenation are those of
      its first part followed by those of its second. */
  lemma {:induction false} FilterAppend<T(!new)>(a: seq<T>, b: seq<T>, p: set<T>, inside: bool)
    ensures Filter(a + b, p, inside) == Filter(a, p, inside) + Filter(b, p, inside)
  {
    if a == [] {
      assert a + b == b;
    } else {
      assert (a + b)[0] == a[0];
      assert (a + b)[1..] == a[1..] + b;
      FilterAppend(a[1..], b, p, inside);
    }
  }

  /** Filtering only looks at the elements the sequence holds. */
  lemma {:induction false} FilterSameOn<T(!new)>(s: seq<T>, p: set<T>, q: set<T>, inside: bool)
    requires forall x :: x in s ==> (x in p <==> x in q)
    ensures Filter(s, p, inside) == Filter(s, q, inside)
  {
    if s != [] {
      FilterSameOn(s[1..], p, q, inside);
    }
  }

  /** The kept and the dropped elements together are the whole sequence. */
  lemma {:induction false} FilterPartition<T(!new)>(s: seq<T>, p: set<T>)
    ensures |Filter(s, p, true)| + |Filter(s, p, false)| == |s|
  {
    if s != [] {
      FilterPartition(s[1..], p);
    }
  }
}
