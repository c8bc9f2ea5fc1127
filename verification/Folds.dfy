/** Sums over lists and over dictionaries, and the group-by laws the reports rely on. */
module Folds {

  datatype Option<+T> = None | Some(value: T)

  /** The total of `f` over a list, in the order in which the accumulating loops of the source add. */
  function Sum<T>(xs: seq<T>, f: T -> int): int
  {
    if |xs| == 0 then 0 else Sum(xs[..|xs| - 1], f) + f(xs[|xs| - 1])
  }

  lemma SumPrefix<T>(xs: seq<T>, i: nat, f: T -> int)
    requires i < |xs|
    ensures Sum(xs[..i + 1], f) == Sum(xs[..i], f) + f(xs[i])
  {
    assert xs[..i + 1][..i] == xs[..i];
  }

  lemma {:induction false} SumEmpty<T>(xs: seq<T>, f: T -> int)
    requires |xs| == 0
    ensures Sum(xs, f) == 0
  {
  }

  /** `sum(f(x) for x in xs)`. */
  method Total<T>(xs: seq<T>, f: T -> int) returns (total: int)
    ensures total == Sum(xs, f)
  {
    hide Sum;
    total := 0;
    SumEmpty(xs[..0], f);
    for i := 0 to |xs|
      invariant total == Sum(xs[..i], f)
    {
      SumPrefix(xs, i, f);
      total := total + f(xs[i]);
    }
    assert xs[..|xs|] == xs;
  }

  lemma {:induction false} SumSnoc<T>(xs: seq<T>, x: T, f: T -> int)
    ensures Sum(xs + [x], f) == Sum(xs, f) + f(x)
  {
    assert (xs + [x])[..|xs|] == xs;
  }

  lemma {:induction false} SumConcat<T>(xs: seq<T>, ys: seq<T>, f: T -> int)
    ensures Sum(xs + ys, f) == Sum(xs, f) + Sum(ys, f)
  {
    if |ys| == 0 {
      assert xs + ys == xs;
    } else {
      var n := |ys| - 1;
      assert (xs + ys)[..|xs + ys| - 1] == xs + ys[..n];
      SumConcat(xs, ys[..n], f);
    }
  }

  /** A list total does not depend on the order of the list, so sorting never changes a report total. */
  lemma {:induction false} SumPermuted<T>(xs: seq<T>, ys: seq<T>, f: T -> int)
    requires multiset(xs) == multiset(ys)
    ensures Sum(xs, f) == Sum(ys, f)
  {
    if |xs| == 0 {
      assert |multiset(ys)| == 0;
    } else {
      var n := |xs| - 1;
      var x := xs[n];
      assert xs == xs[..n] + [x];
      assert x in multiset(ys);
      var j :| 0 <= j < |ys| && ys[j] == x;
      assert ys == ys[..j] + [x] + ys[j + 1..];
      var rest := ys[..j] + ys[j + 1..];
      assert multiset(xs) == multiset(xs[..n]) + multiset{x};
      assert multiset(ys) == multiset(rest) + multiset{x};
      assert multiset(xs[..n]) == multiset(xs) - multiset{x} == multiset(rest);
      SumPermuted(xs[..n], ys[..j] + ys[j + 1..], f);
      SumConcat(ys[..j], ys[j + 1..], f);
      SumConcat(ys[..j] + [x], ys[j + 1..], f);
      SumSnoc(ys[..j], x, f);
    }
  }

  lemma {:induction false} SumSame<T>(xs: seq<T>, f: T -> int, g: T -> int)
    requires forall i :: 0 <= i < |xs| ==> f(xs[i]) == g(xs[i])
    ensures Sum(xs, f) == Sum(xs, g)
  {
    if |xs| > 0 {
      SumSame(xs[..|xs| - 1], f, g);
    }
  }

  lemma {:induction false} SumAdd<T>(xs: seq<T>, f: T -> int, g: T -> int, h: T -> int)
    requires forall i :: 0 <= i < |xs| ==> h(xs[i]) == f(xs[i]) + g(xs[i])
    ensures Sum(xs, h) == Sum(xs, f) + Sum(xs, g)
  {
    if |xs| > 0 {
      SumAdd(xs[..|xs| - 1], f, g, h);
    }
  }

  lemma {:induction false} SumNonNegative<T>(xs: seq<T>, f: T -> int)
    requires forall i :: 0 <= i < |xs| ==> f(xs[i]) >= 0
    ensures Sum(xs, f) >= 0
    ensures forall i :: 0 <= i < |xs| ==> f(xs[i]) <= Sum(xs, f)
  {
    if |xs| > 0 {
      SumNonNegative(xs[..|xs| - 1], f);
      assert forall i :: 0 <= i < |xs| - 1 ==> xs[i] == xs[..|xs| - 1][i];
    }
  }

  lemma {:induction false} SumZero<T>(xs: seq<T>, f: T -> int)
    requires forall i :: 0 <= i < |xs| ==> f(xs[i]) == 0
    ensures Sum(xs, f) == 0
  {
    if |xs| > 0 {
      SumZero(xs[..|xs| - 1], f);
    }
  }

  /** The rows of the entries that pass `keep`, in order: the shape of every filtering report loop. */
  function FilterMap<T, U>(xs: seq<T>, keep: T -> bool, row: T -> U): seq<U>
  {
    if |xs| == 0 then []
    else
      var rest := FilterMap(xs[..|xs| - 1], keep, row);
      if keep(xs[|xs| - 1]) then rest + [row(xs[|xs| - 1])] else rest
  }

  lemma FilterMapPrefix<T, U>(xs: seq<T>, i: nat, keep: T -> bool, row: T -> U)
    requires i < |xs|
    ensures FilterMap(xs[..i + 1], keep, row)
         == FilterMap(xs[..i], keep, row) + if keep(xs[i]) then [row(xs[i])] else []
  {
    assert xs[..i + 1][..i] == xs[..i];
  }

  lemma {:induction false} FilterMapEmpty<T, U>(xs: seq<T>, keep: T -> bool, row: T -> U)
    requires |xs| == 0
    ensures FilterMap(xs, keep, row) == []
  {
  }

  lemma {:induction false} FilterMapSum<T, U>(xs: seq<T>, keep: T -> bool, row: T -> U, f: U -> int, g: T -> int)
    requires forall i :: 0 <= i < |xs| ==> g(xs[i]) == if keep(xs[i]) then f(row(xs[i])) else 0
    ensures Sum(FilterMap(xs, keep, row), f) == Sum(xs, g)
  {
    if |xs| > 0 {
      var rest := FilterMap(xs[..|xs| - 1], keep, row);
      FilterMapSum(xs[..|xs| - 1], keep, row, f, g);
      SumSnoc(rest, row(xs[|xs| - 1]), f);
    }
  }

  lemma {:induction false} FilterMapMember<T, U>(xs: seq<T>, keep: T -> bool, row: T -> U, u: U)
    ensures u in FilterMap(xs, keep, row) <==> exists i :: 0 <= i < |xs| && keep(xs[i]) && row(xs[i]) == u
  {
    if |xs| > 0 {
      var n := |xs| - 1;
      FilterMapMember(xs[..n], keep, row, u);
      assert forall i :: 0 <= i < n ==> xs[..n][i] == xs[i];
    }
  }

  function Whole<V>(): V -> V { (v: V) => v }

  /** `[x for x in xs if keep(x)]`. */
  method Select<T>(xs: seq<T>, keep: T -> bool) returns (ys: seq<T>)
    ensures ys == FilterMap(xs, keep, Whole())
  {
    hide FilterMap;
    ys := [];
    FilterMapEmpty(xs[..0], keep, Whole<T>());
    for i := 0 to |xs|
      invariant ys == FilterMap(xs[..i], keep, Whole())
    {
      FilterMapPrefix(xs, i, keep, Whole<T>());
      if keep(xs[i]) { ys := ys + [xs[i]]; }
    }
    assert xs[..|xs|] == xs;
  }

  function One<T>(): T -> int { (x: T) => 1 }

  lemma {:induction false} CountIsLength<T>(xs: seq<T>)
    ensures Sum(xs, One()) == |xs|
  {
    if |xs| > 0 { CountIsLength(xs[..|xs| - 1]); }
  }

  function Map<T, U>(xs: seq<T>, f: T -> U): seq<U>
  {
    seq(|xs|, i requires 0 <= i < |xs| => f(xs[i]))
  }

  lemma MapEmpty<T, U>(xs: seq<T>, f: T -> U)
    requires |xs| == 0
    ensures Map(xs, f) == []
  {
  }

  lemma MapPrefix<T, U>(xs: seq<T>, i: nat, f: T -> U)
    requires i < |xs|
    ensures Map(xs[..i + 1], f) == Map(xs[..i], f) + [f(xs[i])]
  {
  }

  lemma {:induction false} MapSum<T, U>(xs: seq<T>, f: T -> U, g: U -> int, h: T -> int)
    requires forall i :: 0 <= i < |xs| ==> h(xs[i]) == g(f(xs[i]))
    ensures Sum(Map(xs, f), g) == Sum(xs, h)
  {
    if |xs| > 0 {
      var n := |xs| - 1;
      MapSum(xs[..n], f, g, h);
      assert Map(xs, f)[..n] == Map(xs[..n], f);
    }
  }

  predicate NoDuplicates<T(==)>(xs: seq<T>)
  {
    forall i, j :: 0 <= i < j < |xs| ==> xs[i] != xs[j]
  }

  /** The keys of a Python group-by dictionary, in insertion order. */
  function GroupKeys<T, K(==)>(xs: seq<T>, key: T -> K): (ks: seq<K>)
    ensures NoDuplicates(ks)
    ensures forall i :: 0 <= i < |xs| ==> key(xs[i]) in ks
    ensures forall k :: k in ks ==> exists i :: 0 <= i < |xs| && key(xs[i]) == k
  {
    if |xs| == 0 then []
    else
      var ys := xs[..|xs| - 1];
      var ks := GroupKeys(ys, key);
      var k := key(xs[|xs| - 1]);
      assert forall i :: 0 <= i < |ys| ==> key(ys[i]) == key(xs[i]);
      if k in ks then ks else ks + [k]
  }

  lemma GroupKeysPrefix<T, K>(xs: seq<T>, i: nat, key: T -> K)
    requires i < |xs|
    ensures GroupKeys(xs[..i + 1], key)
         == GroupKeys(xs[..i], key) + if key(xs[i]) in GroupKeys(xs[..i], key) then [] else [key(xs[i])]
  {
    assert xs[..i + 1][..i] == xs[..i];
  }

  /** `f` on the entries of one group, zero elsewhere. */
  function Restrict<T, K(==)>(f: T -> int, key: T -> K, k: K): T -> int
  {
    x => if key(x) == k then f(x) else 0
  }

  function GroupTotal<T, K(==)>(xs: seq<T>, key: T -> K, f: T -> int): K -> int
  {
    k => Sum(xs, Restrict(f, key, k))
  }

  lemma TallyStartsEmpty<T, K(!new)>(xs: seq<T>, key: T -> K, amount: T -> int)
    ensures GroupKeys(xs[..0], key) == []
    ensures forall k :: GroupTotal(xs[..0], key, amount)(k) == 0
  {
  }

  /** Totals per key, as the `totals[key] = totals.get(key, 0.0) + amount` loops of the reports build them. */
  method Tally<T, K(==, !new)>(xs: seq<T>, key: T -> K, amount: T -> int) returns (totals: map<K, int>)
    ensures forall k :: (if k in totals then totals[k] else 0) == GroupTotal(xs, key, amount)(k)
    ensures forall k :: k in totals <==> k in GroupKeys(xs, key)
  {
    hide Sum, GroupKeys;
    totals := map[];
    TallyStartsEmpty(xs, key, amount);
    for i := 0 to |xs|
      invariant forall k :: (if k in totals then totals[k] else 0) == GroupTotal(xs[..i], key, amount)(k)
      invariant forall k :: k in totals <==> k in GroupKeys(xs[..i], key)
    {
      var x := xs[i];
      GroupKeysPrefix(xs, i, key);
      forall k
        ensures GroupTotal(xs[..i + 1], key, amount)(k)
             == GroupTotal(xs[..i], key, amount)(k) + Restrict(amount, key, k)(x)
      {
        SumPrefix(xs, i, Restrict(amount, key, k));
      }
      totals := totals[key(x) := (if key(x) in totals then totals[key(x)] else 0) + amount(x)];
    }
    assert xs[..|xs|] == xs;
  }

  function Indicator<K(==)>(k: K, v: int): K -> int
  {
    x => if x == k then v else 0
  }

  lemma {:induction false} IndicatorSum<K>(ks: seq<K>, k: K, v: int)
    requires NoDuplicates(ks)
    ensures Sum(ks, Indicator(k, v)) == if k in ks then v else 0
  {
    if |ks| > 0 {
      var n := |ks| - 1;
      IndicatorSum(ks[..n], k, v);
      assert ks == ks[..n] + [ks[n]];
    }
  }

  /** Summing every group and adding the group totals gives the plain total. */
  lemma {:induction false} GroupSum<T, K>(xs: seq<T>, key: T -> K, f: T -> int)
    ensures Sum(GroupKeys(xs, key), GroupTotal(xs, key, f)) == Sum(xs, f)
  {
    if |xs| > 0 {
      var n := |xs| - 1;
      var ys, x := xs[..n], xs[n];
      var k := key(x);
      var old_, ks := GroupKeys(ys, key), GroupKeys(xs, key);
      GroupSum(ys, key, f);
      SumAdd(ks, GroupTotal(ys, key, f), Indicator(k, f(x)), GroupTotal(xs, key, f));
      IndicatorSum(ks, k, f(x));
      if k !in old_ {
        SumSnoc(old_, k, GroupTotal(ys, key, f));
        SumZero(ys, Restrict(f, key, k));
      }
    }
  }

  /** `f` on the entries whose key is listed, zero elsewhere. */
  function Within<T, K(==)>(f: T -> int, key: T -> K, ks: seq<K>): T -> int
  {
    x => if key(x) in ks then f(x) else 0
  }

  /** Adding group totals over any list of distinct keys counts every entry with a listed key once. */
  lemma {:induction false} KeyedSum<T, K>(ks: seq<K>, xs: seq<T>, key: T -> K, f: T -> int)
    requires NoDuplicates(ks)
    ensures Sum(ks, GroupTotal(xs, key, f)) == Sum(xs, Within(f, key, ks))
  {
    if |xs| == 0 {
      SumZero(ks, GroupTotal(xs, key, f));
    } else {
      var n := |xs| - 1;
      KeyedSum(ks, xs[..n], key, f);
      SumAdd(ks, GroupTotal(xs[..n], key, f), Indicator(key(xs[n]), f(xs[n])), GroupTotal(xs, key, f));
      IndicatorSum(ks, key(xs[n]), f(xs[n]));
    }
  }

  // ---- one record per group ----

  /** The record of group `k` after a loop that starts it with `start(k)` and adds each of its entries in order. */
  function GroupFold<T, K(==), R>(xs: seq<T>, key: T -> K, start: K -> R, add: (R, T) -> R, k: K): R
  {
    if |xs| == 0 then start(k)
    else
      var n := |xs| - 1;
      var r := GroupFold(xs[..n], key, start, add, k);
      if key(xs[n]) == k then add(r, xs[n]) else r
  }

  function Grouped<T, K(==), R>(xs: seq<T>, key: T -> K, start: K -> R, add: (R, T) -> R): K -> R
  {
    k => GroupFold(xs, key, start, add, k)
  }

  /** One record per group, in the order in which the groups were met. */
  function Groups<T, K(==), R>(xs: seq<T>, key: T -> K, start: K -> R, add: (R, T) -> R): seq<R>
  {
    Map(GroupKeys(xs, key), Grouped(xs, key, start, add))
  }

  lemma GroupFoldPrefix<T, K, R>(xs: seq<T>, i: nat, key: T -> K, start: K -> R, add: (R, T) -> R, k: K)
    requires i < |xs|
    ensures GroupFold(xs[..i + 1], key, start, add, k)
         == var r := GroupFold(xs[..i], key, start, add, k); if key(xs[i]) == k then add(r, xs[i]) else r
  {
    assert xs[..i + 1][..i] == xs[..i];
  }

  lemma GroupsStart<T, K(!new), R>(xs: seq<T>, key: T -> K, start: K -> R, add: (R, T) -> R)
    ensures GroupKeys(xs[..0], key) == []
    ensures forall k :: GroupFold(xs[..0], key, start, add, k) == start(k)
  {
  }

  /** For every `x`, `record = records.setdefault(key(x), start(key(x)))` and in-place updates; then `values()`. */
  method GroupRecords<T, K(==, !new), R>(xs: seq<T>, key: T -> K, start: K -> R, add: (R, T) -> R) returns (records: seq<R>)
    ensures records == Groups(xs, key, start, add)
  {
    hide GroupFold, GroupKeys;
    var order: seq<K>, byKey: map<K, R> := [], map[];
    GroupsStart(xs, key, start, add);
    for i := 0 to |xs|
      invariant order == GroupKeys(xs[..i], key)
      invariant forall k :: k in byKey <==> k in order
      invariant forall k :: (if k in byKey then byKey[k] else start(k)) == GroupFold(xs[..i], key, start, add, k)
    {
      var k := key(xs[i]);
      GroupKeysPrefix(xs, i, key);
      forall j { GroupFoldPrefix(xs, i, key, start, add, j); }
      if k !in byKey { order := order + [k]; }
      byKey := byKey[k := add(if k in byKey then byKey[k] else start(k), xs[i])];
    }
    assert xs[..|xs|] == xs;
    records := Map(order, k => if k in byKey then byKey[k] else start(k));
  }

  /** A field that starts at zero and grows by `f` holds the group's total of `f`. */
  lemma {:induction false} GroupedField<T(!new), K, R(!new)>(xs: seq<T>, key: T -> K, start: K -> R, add: (R, T) -> R,
                                                             field: R -> int, f: T -> int, k: K)
    requires field(start(k)) == 0 && forall r, x :: field(add(r, x)) == field(r) + f(x)
    ensures field(GroupFold(xs, key, start, add, k)) == GroupTotal(xs, key, f)(k)
  {
    if |xs| > 0 { GroupedField(xs[..|xs| - 1], key, start, add, field, f, k); }
  }

  /** Grouping loses nothing: such a field adds up over the groups to the plain total. */
  lemma {:induction false} GroupsTotal<T(!new), K(!new), R(!new)>(xs: seq<T>, key: T -> K, start: K -> R, add: (R, T) -> R,
                                               field: R -> int, f: T -> int)
    requires forall k :: field(start(k)) == 0
    requires forall r, x :: field(add(r, x)) == field(r) + f(x)
    ensures Sum(Groups(xs, key, start, add), field) == Sum(xs, f)
  {
    hide Sum, GroupFold, GroupKeys, GroupTotal, Map;
    forall k ensures field(Grouped(xs, key, start, add)(k)) == GroupTotal(xs, key, f)(k) {
      GroupedField(xs, key, start, add, field, f, k);
    }
    MapSum(GroupKeys(xs, key), Grouped(xs, key, start, add), field, GroupTotal(xs, key, f));
    GroupSum(xs, key, f);
  }

  lemma {:induction false} GroupMember<T, K, R>(xs: seq<T>, key: T -> K, start: K -> R, add: (R, T) -> R, r: R)
    ensures r in Groups(xs, key, start, add) <==>
        exists k :: k in GroupKeys(xs, key) && Grouped(xs, key, start, add)(k) == r
  {
    hide GroupKeys, GroupFold;
    var ks := GroupKeys(xs, key);
    var rows := Groups(xs, key, start, add);
    assert |rows| == |ks| && forall i :: 0 <= i < |ks| ==> rows[i] == Grouped(xs, key, start, add)(ks[i]);
    if k :| k in ks && Grouped(xs, key, start, add)(k) == r {
      var i :| 0 <= i < |ks| && ks[i] == k;
      assert rows[i] == r;
    }
  }

  lemma MapMember<T, U>(xs: seq<T>, f: T -> U, u: U)
    ensures u in Map(xs, f) <==> exists x :: x in xs && f(x) == u
  {
    if x :| x in xs && f(x) == u {
      var i :| 0 <= i < |xs| && xs[i] == x;
      assert Map(xs, f)[i] == u;
    }
  }

  // ---- lists with distinct keys ----

  predicate DistinctBy<T, K(==)>(xs: seq<T>, key: T -> K)
  {
    forall i, j :: 0 <= i < j < |xs| ==> key(xs[i]) != key(xs[j])
  }

  lemma {:induction false} CountAtMostOne<T>(xs: seq<T>, x: T)
    requires NoDuplicates(xs)
    ensures multiset(xs)[x] <= 1
  {
    if |xs| > 0 {
      var n := |xs| - 1;
      assert xs == xs[..n] + [xs[n]];
      CountAtMostOne(xs[..n], x);
      if x == xs[n] { assert x !in xs[..n]; }
    }
  }

  lemma NoDuplicatesPermuted<T>(xs: seq<T>, ys: seq<T>)
    requires NoDuplicates(xs) && multiset(xs) == multiset(ys)
    ensures NoDuplicates(ys)
  {
    forall i, j | 0 <= i < j < |ys| ensures ys[i] != ys[j] {
      CountAtMostOne(xs, ys[i]);
      assert ys == ys[..j] + [ys[j]] + ys[j + 1..];
      assert ys[i] in ys[..j];
      assert multiset(ys[..j])[ys[i]] >= 1;
    }
  }

  /** Two lists without duplicates that hold the same entries give the same total. */
  lemma {:induction false} SameMembersSum<T(!new)>(xs: seq<T>, ys: seq<T>, f: T -> int)
    requires NoDuplicates(xs) && NoDuplicates(ys) && forall x :: x in xs <==> x in ys
    ensures Sum(xs, f) == Sum(ys, f)
  {
    forall x ensures multiset(xs)[x] == multiset(ys)[x] {
      CountAtMostOne(xs, x);
      CountAtMostOne(ys, x);
      assert x in xs <==> x in multiset(xs);
      assert x in ys <==> x in multiset(ys);
    }
    SumPermuted(xs, ys, f);
  }

  lemma DistinctPermuted<T, K>(xs: seq<T>, ys: seq<T>, key: T -> K)
    requires DistinctBy(xs, key) && multiset(xs) == multiset(ys)
    ensures DistinctBy(ys, key)
  {
    NoDuplicatesPermuted(xs, ys);
    forall i, j | 0 <= i < j < |ys| ensures key(ys[i]) != key(ys[j]) {
      assert ys[i] in multiset(xs) && ys[j] in multiset(xs);
      var a :| 0 <= a < |xs| && xs[a] == ys[i];
      var b :| 0 <= b < |xs| && xs[b] == ys[j];
    }
  }

  /** Rows that keep the key of the entry they are made from are as distinct as the entries. */
  lemma {:induction false} DistinctFiltered<T, U, K>(xs: seq<T>, keep: T -> bool, row: T -> U, key: T -> K, name: U -> K)
    requires DistinctBy(xs, key) && forall i :: 0 <= i < |xs| ==> name(row(xs[i])) == key(xs[i])
    ensures DistinctBy(FilterMap(xs, keep, row), name)
  {
    if |xs| > 0 {
      var n := |xs| - 1;
      var rest := FilterMap(xs[..n], keep, row);
      assert forall i :: 0 <= i < n ==> xs[..n][i] == xs[i];
      DistinctFiltered(xs[..n], keep, row, key, name);
      forall i | 0 <= i < |rest| ensures name(rest[i]) != key(xs[n]) {
        FilterMapMember(xs[..n], keep, row, rest[i]);
      }
    }
  }

  /** A group-by that keeps every group's key in its record lists every key once. */
  lemma {:induction false} DistinctGroups<T, K(!new), R>(xs: seq<T>, key: T -> K, start: K -> R, add: (R, T) -> R,
                                                         name: R -> K)
    requires forall k :: name(GroupFold(xs, key, start, add, k)) == k
    ensures DistinctBy(Groups(xs, key, start, add), name)
  {
    hide GroupFold, GroupKeys;
    var ks := GroupKeys(xs, key);
    assert forall i :: 0 <= i < |ks| ==> name(Grouped(xs, key, start, add)(ks[i])) == ks[i];
  }

  // ---- sums over dictionaries ----

  /** The total of `f` over the values of a dictionary. */
  ghost function SumMap<K, V>(m: map<K, V>, f: V -> int): int
    decreases |m|
  {
    if m == map[] then 0
    else
      var k :| k in m;
      f(m[k]) + SumMap(m - {k}, f)
  }

  lemma {:induction false} SumMapRemove<K, V>(m: map<K, V>, k: K, f: V -> int)
    requires k in m
    ensures SumMap(m, f) == f(m[k]) + SumMap(m - {k}, f)
    decreases |m|
  {
    var j :| j in m && SumMap(m, f) == f(m[j]) + SumMap(m - {j}, f);
    if j != k {
      SumMapRemove(m - {j}, k, f);
      SumMapRemove(m - {k}, j, f);
      assert m - {j} - {k} == m - {k} - {j};
    }
  }

  lemma SumMapInsert<K, V>(m: map<K, V>, k: K, v: V, f: V -> int)
    requires k !in m
    ensures SumMap(m[k := v], f) == SumMap(m, f) + f(v)
  {
    SumMapRemove(m[k := v], k, f);
    assert m[k := v] - {k} == m;
  }

  lemma SumMapUpdate<K, V>(m: map<K, V>, k: K, v: V, f: V -> int)
    requires k in m
    ensures SumMap(m[k := v], f) == SumMap(m, f) - f(m[k]) + f(v)
  {
    SumMapRemove(m[k := v], k, f);
    SumMapRemove(m, k, f);
    assert m[k := v] - {k} == m - {k};
  }

  lemma {:induction false} SumMapSame<K, V>(m: map<K, V>, f: V -> int, g: V -> int)
    requires forall k :: k in m ==> f(m[k]) == g(m[k])
    ensures SumMap(m, f) == SumMap(m, g)
    decreases |m|
  {
    if m != map[] {
      var k :| k in m;
      SumMapRemove(m, k, f);
      SumMapRemove(m, k, g);
      SumMapSame(m - {k}, f, g);
    }
  }

  lemma {:induction false} SumMapNonNegative<K, V>(m: map<K, V>, f: V -> int)
    requires forall k :: k in m ==> f(m[k]) >= 0
    ensures SumMap(m, f) >= 0
    ensures forall k :: k in m ==> f(m[k]) <= SumMap(m, f)
    decreases |m|
  {
    forall k | k in m ensures f(m[k]) <= SumMap(m, f) {
      SumMapRemove(m, k, f);
      SumMapNonNegative(m - {k}, f);
    }
    if m != map[] {
      var k :| k in m;
      assert f(m[k]) <= SumMap(m, f);
    }
  }

  lemma {:induction false} SumMapZero<K, V>(m: map<K, V>, f: V -> int)
    requires forall k :: k in m ==> f(m[k]) == 0
    ensures SumMap(m, f) == 0
    decreases |m|
  {
    if m != map[] {
      var k :| k in m;
      SumMapRemove(m, k, f);
      SumMapZero(m - {k}, f);
    }
  }

  /** Leaving entries out of a dictionary never raises a total of non-negative amounts. */
  lemma {:induction false} SumMapWithout<K, V>(m: map<K, V>, out: set<K>, f: V -> int)
    requires forall k :: k in m ==> f(m[k]) >= 0
    ensures SumMap(m - out, f) <= SumMap(m, f)
    decreases |m|
  {
    if k :| k in m && k in out {
      SumMapRemove(m, k, f);
      SumMapWithout(m - {k}, out, f);
      assert m - {k} - out == m - out;
    } else {
      assert m - out == m;
    }
  }

  /** The entries of a dictionary that pass `keep`. */
  function FilterValues<K, V>(m: map<K, V>, keep: V -> bool): map<K, V> { map k | k in m && keep(m[k]) :: m[k] }

  function Fails<V>(keep: V -> bool): V -> bool { (v: V) => !keep(v) }

  lemma {:induction false} FilteredWithout<K, V>(m: map<K, V>, keep: V -> bool, k: K, f: V -> int)
    requires k in m
    ensures SumMap(FilterValues(m, keep), f)
         == SumMap(FilterValues(m - {k}, keep), f) + if keep(m[k]) then f(m[k]) else 0
  {
    hide SumMap;
    var kept := FilterValues(m, keep);
    assert FilterValues(m - {k}, keep) == kept - {k};
    if keep(m[k]) { SumMapRemove(kept, k, f); } else { assert kept - {k} == kept; }
  }

  /** A total over a dictionary splits into the entries that pass and those that do not. */
  lemma {:induction false} SumMapSplit<K, V>(m: map<K, V>, keep: V -> bool, f: V -> int)
    ensures SumMap(m, f) == SumMap(FilterValues(m, keep), f) + SumMap(FilterValues(m, Fails(keep)), f)
    decreases |m|
  {
    if m == map[] {
      assert FilterValues(m, keep) == map[] && FilterValues(m, Fails(keep)) == map[];
    } else {
      hide SumMap, FilterValues;
      var k :| k in m;
      SumMapSplit(m - {k}, keep, f);
      SumMapRemove(m, k, f);
      FilteredWithout(m, keep, k, f);
      FilteredWithout(m, Fails(keep), k, f);
    }
  }

  /** `xs` lists the values of `m` in the order `ks`, each entry once: what `values()` hands to a report. */
  ghost predicate Listing<K, V>(m: map<K, V>, ks: seq<K>, xs: seq<V>)
  {
    && NoDuplicates(ks) && |ks| == |xs|
    && (forall k :: k in m ==> k in ks)
    && (forall i :: 0 <= i < |ks| ==> ks[i] in m && xs[i] == m[ks[i]])
  }

  /** A report that adds up the listed values gets the total over the dictionary. */
  lemma {:induction false} ListingSum<K, V>(m: map<K, V>, ks: seq<K>, xs: seq<V>, f: V -> int)
    requires Listing(m, ks, xs)
    ensures Sum(xs, f) == SumMap(m, f)
    decreases |ks|
  {
    if |ks| == 0 {
      assert m == map[];
    } else {
      var n := |ks| - 1;
      SumMapRemove(m, ks[n], f);
      ListingSum(m - {ks[n]}, ks[..n], xs[..n], f);
    }
  }

  /** `sum(f(v) for v in m.values())`. */
  method SumValues<K(==), V>(m: map<K, V>, f: V -> int) returns (total: int)
    ensures total == SumMap(m, f)
  {
    hide SumMap;
    var rest := m;
    total := 0;
    SumMapEmpty<K, V>(map[], f);
    while rest != map[]
      invariant total + SumMap(rest, f) == SumMap(m, f)
      decreases |rest|
    {
      var k :| k in rest;
      SumMapRemove(rest, k, f);
      total := total + f(rest[k]);
      rest := rest - {k};
    }
  }

  lemma {:induction false} SumMapEmpty<K, V>(m: map<K, V>, f: V -> int)
    requires m == map[]
    ensures SumMap(m, f) == 0
  {
  }

  /** `list(m.values())`, with the order in which the keys were met. */
  method ListValues<K(==), V>(m: map<K, V>) returns (ks: seq<K>, xs: seq<V>)
    ensures Listing(m, ks, xs)
  {
    var rest := m.Keys;
    ks, xs := [], [];
    while rest != {}
      invariant rest <= m.Keys && NoDuplicates(ks) && |ks| == |xs|
      invariant forall k :: k in m ==> (k in rest <==> k !in ks)
      invariant forall i :: 0 <= i < |ks| ==> ks[i] in m && xs[i] == m[ks[i]]
      decreases rest
    {
      var k :| k in rest;
      ks, xs := ks + [k], xs + [m[k]];
      rest := rest - {k};
    }
  }
}
