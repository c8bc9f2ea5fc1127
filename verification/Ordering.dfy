/** Python sort keys: tuples of numbers and strings, compared lexicographically, and the stable sort on them. */
module Ordering {

  /** A tuple of numbers and strings, first component outermost. */
  datatype Key = End | By(n: int, rest: Key) | ByText(s: string, rest: Key)

  predicate TextLeq(a: string, b: string)
  {
    if |a| == 0 then true
    else if |b| == 0 then false
    else if a[0] == b[0] then TextLeq(a[1..], b[1..])
    else a[0] < b[0]
  }

  lemma {:induction false} TextTotal(a: string, b: string)
    ensures TextLeq(a, b) || TextLeq(b, a)
    ensures TextLeq(a, b) && TextLeq(b, a) ==> a == b
  {
    if |a| > 0 && |b| > 0 && a[0] == b[0] {
      TextTotal(a[1..], b[1..]);
      assert a == [a[0]] + a[1..] && b == [b[0]] + b[1..];
    }
  }

  lemma {:induction false} TextTransitive(a: string, b: string, c: string)
    requires TextLeq(a, b) && TextLeq(b, c)
    ensures TextLeq(a, c)
  {
    if |a| > 0 && |b| > 0 && |c| > 0 && a[0] == b[0] == c[0] {
      TextTransitive(a[1..], b[1..], c[1..]);
    }
  }

  predicate KeyLeq(a: Key, b: Key)
  {
    match (a, b)
    case (End, _) => true
    case (By(m, r), By(n, s)) => m < n || (m == n && KeyLeq(r, s))
    case (ByText(m, r), ByText(n, s)) => if m == n then KeyLeq(r, s) else TextLeq(m, n)
    case (By(_, _), ByText(_, _)) => true
    case _ => false
  }

  lemma {:induction false} KeyTotal(a: Key, b: Key)
    ensures KeyLeq(a, b) || KeyLeq(b, a)
    ensures KeyLeq(a, b) && KeyLeq(b, a) ==> a == b
  {
    match (a, b)
    case (By(_, r), By(_, s)) => KeyTotal(r, s);
    case (ByText(m, r), ByText(n, s)) =>
      KeyTotal(r, s);
      TextTotal(m, n);
    case _ =>
  }

  lemma {:induction false} KeyTransitive(a: Key, b: Key, c: Key)
    requires KeyLeq(a, b) && KeyLeq(b, c)
    ensures KeyLeq(a, c)
  {
    match (a, b, c)
    case (By(l, r), By(m, s), By(n, t)) =>
      if l == m == n { KeyTransitive(r, s, t); }
    case (ByText(l, r), ByText(m, s), ByText(n, t)) =>
      TextTotal(l, m);
      TextTotal(m, n);
      if l == m == n { KeyTransitive(r, s, t); }
      else if l != m && m != n { TextTransitive(l, m, n); }
    case _ =>
  }

  ghost predicate Sorted<T>(xs: seq<T>, key: T -> Key)
  {
    forall i, j :: 0 <= i < j < |xs| ==> KeyLeq(key(xs[i]), key(xs[j]))
  }

  /** Puts `x` after every entry whose key is not larger, so equal keys keep their order. */
  function Insert<T>(xs: seq<T>, x: T, key: T -> Key): (ys: seq<T>)
    ensures multiset(ys) == multiset(xs) + multiset{x}
  {
    if |xs| == 0 || KeyLeq(key(xs[|xs| - 1]), key(x)) then xs + [x]
    else
      assert xs == xs[..|xs| - 1] + [xs[|xs| - 1]];
      Insert(xs[..|xs| - 1], x, key) + [xs[|xs| - 1]]
  }

  /** `sorted(xs, key=key)`: a rearrangement of `xs`; `SortBySorts` says it is ordered. */
  function SortBy<T>(xs: seq<T>, key: T -> Key): (ys: seq<T>)
    ensures multiset(ys) == multiset(xs)
    ensures |ys| == |xs|
  {
    if |xs| == 0 then []
    else
      assert xs == xs[..|xs| - 1] + [xs[|xs| - 1]];
      var ys := Insert(SortBy(xs[..|xs| - 1], key), xs[|xs| - 1], key);
      assert |multiset(ys)| == |ys| && |multiset(xs)| == |xs|;
      ys
  }

  lemma {:induction false} InsertKeepsSorted<T>(xs: seq<T>, x: T, key: T -> Key)
    requires Sorted(xs, key)
    ensures Sorted(Insert(xs, x, key), key)
  {
    if |xs| > 0 {
      var n := |xs| - 1;
      var last := xs[n];
      if KeyLeq(key(last), key(x)) {
        forall i | 0 <= i < |xs| ensures KeyLeq(key(xs[i]), key(x)) {
          if i < n { KeyTransitive(key(xs[i]), key(last), key(x)); }
        }
      } else {
        var zs := Insert(xs[..n], x, key);
        InsertKeepsSorted(xs[..n], x, key);
        KeyTotal(key(last), key(x));
        forall i | 0 <= i < |zs| ensures KeyLeq(key(zs[i]), key(last)) {
          assert zs[i] in multiset(zs);
          if zs[i] != x { assert zs[i] in multiset(xs[..n]); }
        }
      }
    }
  }

  lemma {:induction false} SortBySorts<T>(xs: seq<T>, key: T -> Key)
    ensures Sorted(SortBy(xs, key), key)
  {
    if |xs| > 0 {
      SortBySorts(xs[..|xs| - 1], key);
      InsertKeepsSorted(SortBy(xs[..|xs| - 1], key), xs[|xs| - 1], key);
    }
  }

  lemma {:induction false} SortByMembers<T>(xs: seq<T>, key: T -> Key, x: T)
    ensures x in SortBy(xs, key) <==> x in xs
  {
    assert x in SortBy(xs, key) <==> x in multiset(SortBy(xs, key));
    assert x in xs <==> x in multiset(xs);
  }
}
