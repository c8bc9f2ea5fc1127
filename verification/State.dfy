/** The application state, its snapshot and its restoration (state.py). */
module StateModel {
  import opened Folds
  import opened Inventory
  import opened Entities
  import opened Numbering

  /** The dictionaries of `AppState` that the modelled handlers touch, grouped by the part of the business they serve. */
  datatype Registry = Registry(
    tenants: map<Id, Tenant>,
    branches: map<Id, Branch>,
    products: map<Id, Product>,
    suppliers: map<Id, Supplier>,
    catalogOverrides: map<(Id, Id), CatalogOverride>,
    reorderRules: map<(Id, Id), ReorderRule>)

  datatype Purchasing = Purchasing(
    purchaseOrders: map<Id, PurchaseOrder>,
    goodsReceipts: map<Id, GoodsReceipt>,
    purchaseInvoices: map<Id, PurchaseInvoice>,
    vendorDisputes: map<Id, VendorDispute>,
    supplierReturns: map<Id, SupplierReturnNote>,
    supplierPayments: map<Id, SupplierPayment>,
    batchLots: map<Id, BatchLot>)

  datatype Selling = Selling(
    customers: map<Id, Customer>,
    cashSessions: map<Id, CashSession>,
    invoices: map<Id, Invoice>,
    sales: map<Id, Sale>,
    saleReturns: map<Id, CustomerReturnNote>,
    creditNotes: map<Id, CreditNote>,
    exchanges: map<Id, Exchange>)

  datatype Stockroom = Stockroom(transfers: map<Id, Transfer>, stockCounts: map<Id, StockCount>)

  datatype State = State(
    registry: Registry,
    purchasing: Purchasing,
    selling: Selling,
    stockroom: Stockroom,
    counters: Counters,
    ledger: Ledger)

  const EMPTY := State(
    Registry(map[], map[], map[], map[], map[], map[]),
    Purchasing(map[], map[], map[], map[], map[], map[], map[]),
    Selling(map[], map[], map[], map[], map[], map[], map[]),
    Stockroom(map[], map[]),
    map[],
    [])

  datatype CounterEntry = CounterEntry(scope: string, fiscalYear: string, value: nat)

  /** Three dictionaries are saved as lists of their values, because JSON keys must be strings. */
  datatype Snapshot = Snapshot(
    plain: State,
    catalogOverrides: seq<CatalogOverride>,
    reorderRules: seq<ReorderRule>,
    counters: seq<CounterEntry>)

  function OverrideKey(): CatalogOverride -> (Id, Id) { (o: CatalogOverride) => (o.branchId, o.productId) }
  function RuleKey(): ReorderRule -> (Id, Id) { (r: ReorderRule) => (r.branchId, r.productId) }
  function EntryKey(): CounterEntry -> (string, string) { (e: CounterEntry) => (e.scope, e.fiscalYear) }
  function EntryValue(): CounterEntry -> nat { (e: CounterEntry) => e.value }

  /** `{key(entry): value(entry) for entry in entries}`: a later entry replaces an earlier one. */
  function Rebuild<E, K(==), V>(entries: seq<E>, key: E -> K, value: E -> V): map<K, V>
  {
    if |entries| == 0 then map[]
    else
      var e := entries[|entries| - 1];
      Rebuild(entries[..|entries| - 1], key, value)[key(e) := value(e)]
  }

  /** `{key(x): x for x in xs}`. */
  method Index<V, K(==)>(xs: seq<V>, key: V -> K) returns (m: map<K, V>)
    ensures m == Rebuild(xs, key, Whole())
  {
    m := map[];
    for i := 0 to |xs|
      invariant m == Rebuild(xs[..i], key, Whole())
    {
      assert xs[..i + 1][..i] == xs[..i];
      m := m[key(xs[i]) := xs[i]];
    }
    assert xs[..|xs|] == xs;
  }

  function WithoutLists(s: State): State
  {
    s.(registry := s.registry.(catalogOverrides := map[], reorderRules := map[]), counters := map[])
  }

  function Restore(snapshot: Snapshot): State
  {
    snapshot.plain.(
      registry := snapshot.plain.registry.(
        catalogOverrides := Rebuild(snapshot.catalogOverrides, OverrideKey(), Whole()),
        reorderRules := Rebuild(snapshot.reorderRules, RuleKey(), Whole())),
      counters := Rebuild(snapshot.counters, EntryKey(), EntryValue()))
  }

  /** The items of the counter dictionary, listed in the order `ks`. */
  ghost predicate ListsCounters(counters: Counters, ks: seq<(string, string)>, entries: seq<CounterEntry>)
  {
    && NoDuplicates(ks) && |ks| == |entries|
    && (forall k :: k in counters ==> k in ks)
    && (forall i :: 0 <= i < |ks| ==> ks[i] in counters && entries[i] == CounterEntry(ks[i].0, ks[i].1, counters[ks[i]]))
  }

  /** `snapshot` holds the contents of `s`; the order of the three lists is free. */
  ghost predicate SnapshotOf(s: State, snapshot: Snapshot)
  {
    && snapshot.plain == WithoutLists(s)
    && (exists ks :: Listing(s.registry.catalogOverrides, ks, snapshot.catalogOverrides))
    && (exists ks :: Listing(s.registry.reorderRules, ks, snapshot.reorderRules))
    && (exists ks :: ListsCounters(s.counters, ks, snapshot.counters))
  }

  /** Every override and rule is filed under its own branch and product. */
  ghost predicate KeysOwn(r: Registry)
  {
    && (forall k :: k in r.catalogOverrides ==> OverrideKey()(r.catalogOverrides[k]) == k)
    && (forall k :: k in r.reorderRules ==> RuleKey()(r.reorderRules[k]) == k)
  }

  lemma {:induction false} RebuildOwnKeys<K, V>(entries: seq<V>, key: V -> K)
    ensures var m := Rebuild(entries, key, Whole()); forall k :: k in m ==> key(m[k]) == k
  {
    if |entries| > 0 {
      var e := entries[|entries| - 1];
      RebuildOwnKeys(entries[..|entries| - 1], key);
      assert Rebuild(entries, key, Whole()) == Rebuild(entries[..|entries| - 1], key, Whole())[key(e) := e];
    }
  }

  /** A rebuilt dictionary has the keys of its entries, and under each key one of the entries with that key. */
  lemma {:induction false} RebuildMember<K, V>(entries: seq<V>, key: V -> K, k: K)
    ensures k in Rebuild(entries, key, Whole()) <==> exists i :: 0 <= i < |entries| && key(entries[i]) == k
    ensures k in Rebuild(entries, key, Whole()) ==>
      Rebuild(entries, key, Whole())[k] in entries && key(Rebuild(entries, key, Whole())[k]) == k
  {
    if |entries| > 0 {
      var n := |entries| - 1;
      RebuildMember(entries[..n], key, k);
      assert forall i :: 0 <= i < n ==> entries[..n][i] == entries[i];
    }
  }

  lemma {:induction false} RebuildDistinct<E, K, V>(entries: seq<E>, key: E -> K, value: E -> V, ks: seq<K>)
    requires NoDuplicates(ks) && |ks| == |entries|
    requires forall i :: 0 <= i < |ks| ==> key(entries[i]) == ks[i]
    ensures var m := Rebuild(entries, key, value);
            && (forall i :: 0 <= i < |ks| ==> ks[i] in m && m[ks[i]] == value(entries[i]))
            && (forall k :: k in m ==> k in ks)
  {
    if |entries| > 0 {
      var n := |entries| - 1;
      RebuildDistinct(entries[..n], key, value, ks[..n]);
      assert ks == ks[..n] + [ks[n]];
      forall i | 0 <= i < n
        ensures ks[i] in Rebuild(entries, key, value) && Rebuild(entries, key, value)[ks[i]] == value(entries[i])
      {
        assert ks[..n][i] == ks[i] && entries[..n][i] == entries[i];
      }
    }
  }

  /** Rebuilding a listed dictionary gives it back exactly when every value is filed under its own key. */
  lemma {:induction false} RebuildListing<K, V>(m: map<K, V>, ks: seq<K>, xs: seq<V>, key: V -> K)
    requires Listing(m, ks, xs)
    ensures Rebuild(xs, key, Whole()) == m <==> forall k :: k in m ==> key(m[k]) == k
  {
    var m' := Rebuild(xs, key, Whole());
    if forall k :: k in m ==> key(m[k]) == k {
      RebuildDistinct(xs, key, Whole(), ks);
      forall k | k in m ensures k in m' && m'[k] == m[k] {
        var i :| 0 <= i < |ks| && ks[i] == k;
        assert m'[ks[i]] == xs[i];
      }
      assert forall k :: k in m' ==> k in m;
    }
    RebuildOwnKeys(xs, key);
  }

  lemma {:induction false} RebuildCounters(m: Counters, ks: seq<(string, string)>, entries: seq<CounterEntry>)
    requires ListsCounters(m, ks, entries)
    ensures Rebuild(entries, EntryKey(), EntryValue()) == m
  {
    var m' := Rebuild(entries, EntryKey(), EntryValue());
    RebuildDistinct(entries, EntryKey(), EntryValue(), ks);
    forall k | k in m ensures k in m' && m'[k] == m[k] {
      var i :| 0 <= i < |ks| && ks[i] == k;
      assert m'[ks[i]] == entries[i].value;
    }
    assert forall k :: k in m' ==> k in m;
  }

  /** Restoring a snapshot gives back the state exactly when the override and rule keys are their entries' own. */
  lemma RoundTrip(s: State, snapshot: Snapshot)
    requires SnapshotOf(s, snapshot)
    ensures Restore(snapshot) == s <==> KeysOwn(s.registry)
  {
    hide Rebuild, Listing, ListsCounters;
    var ks :| Listing(s.registry.catalogOverrides, ks, snapshot.catalogOverrides);
    var js :| Listing(s.registry.reorderRules, js, snapshot.reorderRules);
    var cs :| ListsCounters(s.counters, cs, snapshot.counters);
    RebuildListing(s.registry.catalogOverrides, ks, snapshot.catalogOverrides, OverrideKey());
    RebuildListing(s.registry.reorderRules, js, snapshot.reorderRules, RuleKey());
    RebuildCounters(s.counters, cs, snapshot.counters);
  }
}
