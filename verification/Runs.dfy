/** Whole runs of the service: any sequence of POST requests and restarts, starting from nothing. */
module Runs {
  import opened Folds
  import opened Inventory
  import opened Numbering
  import opened StateModel
  import opened Handlers
  import opened Frames
  import opened LedgerInvariant
  import opened TillInvariants
  import opened ChainInvariant
  import opened SettlementInvariant
  import opened NumberInvariant
  import opened Consistency
  import opened Solvency
  import opened History
  import opened Middleware
  import opened Crashes
  import opened CustomerTotals

  datatype Event = Arrived(call: Call, request: Request) | Restarted

  const START := World(EMPTY, None)

  /** One request under fresh ids, or a restart that reloads the file. */
  ghost predicate Step(w: World, e: Event, w': World)
  {
    match e
    case Arrived(c, r) => FreshIds(w.mem, c.ids) && Conclude(w, Serve(w.mem, c, r), w')
    case Restarted => w' == World(Recovered(w.disk), w.disk)
  }

  ghost predicate IsRun(ws: seq<World>, es: seq<Event>)
  {
    && |ws| == |es| + 1 && ws[0] == START
    && forall i :: 0 <= i < |es| ==> Step(ws[i], es[i], ws[i + 1])
  }

  // ---- one step ----

  lemma EmptyIsNumbered()
    ensures Numbered(EMPTY.purchasing, EMPTY.selling, EMPTY.counters)
  {
    hide NextNumber, Issued, CounterKey;
    assert forall k: Kind, b: string :: Counter(EMPTY.counters, k, b) == 0;
  }

  lemma EmptyReconciles()
    ensures LedgerReconciles(EMPTY.ledger, EMPTY.purchasing)
  {
    forall i, b ensures Reconciled(EMPTY.ledger, EMPTY.purchasing, i, b) {}
  }

  lemma EmptyIsChained()
    ensures ChainOk(EMPTY.purchasing) && CostsOk(EMPTY.purchasing) && SettlesBills(EMPTY.purchasing)
    ensures PaymentsSafe(EMPTY.purchasing) && ReturnsBounded(EMPTY.purchasing)
  {
    hide SumMap, Sum, LotsCover, LotOk, WithinInvoice, FromOrder, FromReceipt, PositiveCosts;
  }

  lemma EmptyIsConsistent()
    ensures Consistent(EMPTY) && CustomersFaithful(EMPTY.selling)
    ensures Solvent(EMPTY) && ReturnsBounded(EMPTY.purchasing)
  {
    hide Numbered, LedgerReconciles, DrawerOk, ChainOk, CostsOk, SettlesBills, PaymentsSafe, ReturnsBounded;
    EmptyIsNumbered();
    EmptyReconciles();
    EmptyIsChained();
  }

  /** What is saved is what a restart finds. */
  lemma SavedIsRecovered(w: World)
    requires w.disk.Some? && SnapshotOf(w.mem, w.disk.value)
    ensures InSync(w) <==> KeysOwn(w.mem.registry)
  {
    RoundTrip(w.mem, w.disk.value);
  }

  lemma ServedIsConsistent(s: State, c: Call, r: Request)
    requires Consistent(s) && FreshIds(s, c.ids) && Serve(s, c, r).verdict == Accepted
    ensures Consistent(Serve(s, c, r).state) && Later(s, Serve(s, c, r).state)
  {
    hide Consistent, Later, FreshIds, Apply, ValidPayload, Blocked;
    AcceptedKeepsConsistent(s, c, r);
    AcceptedIsLater(s, c, r);
  }

  /** Memory and what a restart would recover are consistent, and memory is ahead by what crashed requests left. */
  ghost predicate Sound(w: World)
  {
    Consistent(w.mem) && Consistent(Recovered(w.disk)) && Ahead(Recovered(w.disk), w.mem)
  }

  predicate Strands(w: World, e: Event) { e.Arrived? && StrandsWork(w.mem, e.call, e.request) }

  /** An event after which memory and disk agree, whatever was stranded before. */
  ghost predicate Settles(w: World, e: Event)
  {
    e.Restarted? || Serve(w.mem, e.call, e.request).verdict == Accepted
  }

  /** An accepted request saves everything in memory, with whatever earlier crashes had left there. */
  lemma AcceptedSavesAll(w: World, c: Call, r: Request, w': World)
    requires Sound(w) && FreshIds(w.mem, c.ids) && Conclude(w, Serve(w.mem, c, r), w')
    requires Serve(w.mem, c, r).verdict == Accepted
    ensures InSync(w') && Sound(w')
    ensures Later(w.mem, Recovered(w'.disk)) && Later(Recovered(w.disk), Recovered(w'.disk))
  {
    hide Later, FreshIds, Serve, SnapshotOf, Restore, KeysOwn, BranchIds, RefsKnown, TillFaithful, LedgerReconciles,
        ChainOk, CostsOk, SettlesBills, Numbered;
    ServedIsConsistent(w.mem, c, r);
    SavedIsRecovered(w');
    AheadSame(w'.mem);
    LaterTransitive(Recovered(w.disk), w.mem, w'.mem);
  }

  /**
   * After a request memory equals what a restart would recover exactly when the request was accepted, or they were
   * equal before and the request does not crash half-way.
   */
  lemma BoundaryIsExact(w: World, c: Call, r: Request, w': World)
    requires Sound(w) && FreshIds(w.mem, c.ids) && Conclude(w, Serve(w.mem, c, r), w')
    ensures InSync(w') <==>
      Serve(w.mem, c, r).verdict == Accepted || (InSync(w) && !StrandsWork(w.mem, c, r))
    ensures Sound(w') && Later(w.mem, w'.mem) && Later(Recovered(w.disk), Recovered(w'.disk))
  {
    hide Later, FreshIds, Serve, StrandsWork, SnapshotOf, Restore, Consistent;
    StrandsExactly(w.mem, c, r);
    LaterSame(w.mem);
    LaterSame(Recovered(w.disk));
    match Serve(w.mem, c, r).verdict
    case Accepted => AcceptedSavesAll(w, c, r, w');
    case Refused =>
    case Crashed =>
      CrashLeaves(w.mem, c, r);
      AheadTransitive(Recovered(w.disk), w.mem, w'.mem);
      LedgersGrow(Recovered(w.disk), w.mem, w'.mem);
  }

  lemma LedgersGrow(d: State, m: State, n: State)
    requires Later(d, m) && Later(m, n)
    ensures |d.ledger| <= |m.ledger| <= |n.ledger|
  {
  }

  lemma StepIsSound(w: World, e: Event, w': World)
    requires Sound(w) && Step(w, e, w')
    ensures Sound(w') && Later(Recovered(w.disk), Recovered(w'.disk))
    ensures InSync(w') <==> Settles(w, e) || (InSync(w) && !Strands(w, e))
  {
    hide Later, FreshIds, Serve, StrandsWork, Consistent, Conclude, Restore, Ahead;
    match e
    case Arrived(c, r) => BoundaryIsExact(w, c, r, w');
    case Restarted =>
      AheadSame(Recovered(w.disk));
      LaterSame(Recovered(w.disk));
  }

  /** A step loses something from memory exactly when it is a restart while memory is ahead of the disk. */
  lemma StepKeepsHistory(w: World, e: Event, w': World)
    requires Sound(w) && Step(w, e, w')
    ensures Later(w.mem, w'.mem) <==> (e.Restarted? ==> InSync(w))
  {
    hide FreshIds, Serve, StrandsWork, Consistent, Conclude, Restore, RegistryLater, BuyingLater, SellingLater,
        CountersLater;
    match e
    case Arrived(c, r) => BoundaryIsExact(w, c, r, w');
    case Restarted => LaterSame(w.mem);
  }

  /** An example of how much a handler can have done when it refuses, all of which the roll-back undoes. */
  lemma {:induction false} RefusedSaleIsUndone(w: World, c: Call, branch: Id, customerId: Option<Id>,
                                               gstin: Option<string>, lines: seq<Line>,
                                               payment: int, method_: string, session: Id, w': World)
    requires branch in w.mem.registry.branches && (customerId.Some? ==> customerId.value in w.mem.selling.customers)
    requires |lines| > 0 && FirstFault(lines, PricingFault(CatalogueOf(w.mem), branch)) == |lines|
    requires session in w.mem.selling.cashSessions && !w.mem.selling.cashSessions[session].open
    requires Conclude(w, Sell(w.mem, c, branch, customerId, gstin, lines, payment, method_, Some(session)), w')
    ensures var left := Sell(w.mem, c, branch, customerId, gstin, lines, payment, method_, Some(session)).state;
            && left.counters == Advance(w.mem.counters, SalesInvoice, branch)
            && c.ids(0) in left.selling.invoices && c.ids(1) in left.selling.sales
                && |left.ledger| == |w.mem.ledger| + |lines|
    ensures w' == w
  {
    hide FirstFault, SaleInvoiceOf, SaleOf, CountVisit;
    assert lines[..|lines|] == lines;
  }

  // ---- every run ----

  /** In every run, at every boundary, memory and the recovered snapshot are consistent, and memory is ahead at most. */
  lemma {:induction false} RunsStayConsistent(ws: seq<World>, es: seq<Event>, i: nat)
    requires IsRun(ws, es) && i < |ws|
    ensures Consistent(ws[i].mem) && Consistent(Recovered(ws[i].disk)) && Ahead(Recovered(ws[i].disk), ws[i].mem)
  {
    hide Consistent, Step, Ahead;
    if i == 0 {
      EmptyIsConsistent();
      AheadSame(EMPTY);
    } else {
      RunsStayConsistent(ws, es, i - 1);
      StepIsSound(ws[i - 1], es[i - 1], ws[i]);
    }
  }

  /** Some request before `i` crashed half-way, and nothing has settled since. */
  ghost predicate Unsaved(ws: seq<World>, es: seq<Event>, i: nat)
    requires i <= |es| < |ws|
  {
    exists j :: 0 <= j < i && Strands(ws[j], es[j]) && forall k :: j < k < i ==> !Settles(ws[k], es[k])
  }

  lemma UnsavedStep(ws: seq<World>, es: seq<Event>, i: nat)
    requires i < |es| < |ws|
    ensures Unsaved(ws, es, i + 1) <==> Strands(ws[i], es[i]) || (Unsaved(ws, es, i) && !Settles(ws[i], es[i]))
  {
    hide Strands, Settles;
    if Strands(ws[i], es[i]) {
      assert Unsaved(ws, es, i + 1);
    } else if Unsaved(ws, es, i) && !Settles(ws[i], es[i]) {
      var j :| 0 <= j < i && Strands(ws[j], es[j]) && forall k :: j < k < i ==> !Settles(ws[k], es[k]);
      assert forall k :: j < k < i + 1 ==> !Settles(ws[k], es[k]);
    }
  }

  lemma StrandedIsNotSettled(w: World, e: Event)
    requires Consistent(w.mem) && Strands(w, e)
    ensures !Settles(w, e)
  {
    hide Consistent, Serve, StrandsWork;
    StrandsExactly(w.mem, e.call, e.request);
  }

  /** Over every run memory and disk agree exactly when no half-way crash is waiting to be saved or dropped. */
  lemma {:induction false} RunsSaveExactly(ws: seq<World>, es: seq<Event>, i: nat)
    requires IsRun(ws, es) && i < |ws|
    ensures InSync(ws[i]) <==> !Unsaved(ws, es, i)
  {
    hide Consistent, Step, Ahead, Strands, Settles, Recovered;
    if i == 0 {
      assert InSync(START) by { StartIsSynchronised(); }
    } else {
      RunsSaveExactly(ws, es, i - 1);
      RunsStayConsistent(ws, es, i - 1);
      StepIsSound(ws[i - 1], es[i - 1], ws[i]);
      UnsavedStep(ws, es, i - 1);
      if Strands(ws[i - 1], es[i - 1]) { StrandedIsNotSettled(ws[i - 1], es[i - 1]); }
    }
  }

  lemma StartIsSynchronised()
    ensures InSync(START)
  {
  }

  /**
   * What is saved is never lost, over every run. Nothing is lost from memory either, as long as the service is only
   * restarted while memory and disk agree.
   */
  lemma {:induction false} RunsKeepHistory(ws: seq<World>, es: seq<Event>, i: nat, j: nat)
    requires IsRun(ws, es) && i <= j < |ws|
    ensures Later(Recovered(ws[i].disk), Recovered(ws[j].disk))
    ensures (forall k :: i <= k < j && es[k].Restarted? ==> InSync(ws[k])) ==> Later(ws[i].mem, ws[j].mem)
    decreases j - i
  {
    hide Consistent, Step, Later, Recovered;
    if i == j {
      LaterSame(ws[i].mem);
      LaterSame(Recovered(ws[i].disk));
    } else {
      RunsKeepHistory(ws, es, i, j - 1);
      RunsStayConsistent(ws, es, j - 1);
      StepIsSound(ws[j - 1], es[j - 1], ws[j]);
      StepKeepsHistory(ws[j - 1], es[j - 1], ws[j]);
      LaterTransitive(Recovered(ws[i].disk), Recovered(ws[j - 1].disk), Recovered(ws[j].disk));
      if forall k :: i <= k < j && es[k].Restarted? ==> InSync(ws[k]) {
        LaterTransitive(ws[i].mem, ws[j - 1].mem, ws[j].mem);
      }
    }
  }

  /** Crashes and restarts never touch purchasing, so no purchasing document is ever lost or rewritten. */
  lemma RunsKeepPurchasing(ws: seq<World>, es: seq<Event>, i: nat, j: nat)
    requires IsRun(ws, es) && i <= j < |ws|
    ensures BuyingLater(ws[i].mem.purchasing, ws[j].mem.purchasing)
    ensures RegistryLater(ws[i].mem.registry, ws[j].mem.registry)
  {
    hide IsRun, Consistent, RegistryLater, BuyingLater, SellingLater, CountersLater, Recovered;
    RunsStayConsistent(ws, es, i);
    RunsStayConsistent(ws, es, j);
    RunsKeepHistory(ws, es, i, j);
  }

  // ---- customer totals ----

  /** The sales that the customer totals miss, in memory and in what a restart would recover. */
  datatype MissedSales = MissedSales(inMemory: set<Id>, onDisk: set<Id>)

  /** A crash between storing and counting adds its sale, a save copies what memory misses, a restart goes back. */
  ghost function MissedStep(m: MissedSales, w: World, e: Event): MissedSales
  {
    match e
    case Restarted => MissedSales(m.onDisk, m.onDisk)
    case Arrived(c, r) =>
      if Serve(w.mem, c, r).verdict == Accepted then MissedSales(m.inMemory, m.inMemory)
      else MissedSales(MissedAfter(w.mem, c, r, m.inMemory), m.onDisk)
  }

  ghost function MissedBy(ws: seq<World>, es: seq<Event>, i: nat): MissedSales
    requires i <= |es| < |ws|
  {
    if i == 0 then MissedSales({}, {}) else MissedStep(MissedBy(ws, es, i - 1), ws[i - 1], es[i - 1])
  }

  ghost predicate MissesExactly(w: World, m: MissedSales)
  {
    Misses(w.mem.selling, m.inMemory) && Misses(Recovered(w.disk).selling, m.onDisk)
  }

  lemma StepMisses(w: World, e: Event, w': World, m: MissedSales)
    requires Sound(w) && Step(w, e, w') && MissesExactly(w, m)
    ensures MissesExactly(w', MissedStep(m, w, e))
  {
    hide FreshIds, Consistent, Ahead, Later, Misses, Restore, SnapshotOf, Apply, ValidPayload, Blocked, SaleRefs,
        StrandsWork;
    if e.Arrived? {
      StrandsExactly(w.mem, e.call, e.request);
      match Serve(w.mem, e.call, e.request).verdict
      case Accepted =>
        ConsistentRefs(w.mem);
        AcceptedMisses(w.mem, e.call, e.request, m.inMemory);
        AcceptedSavesAll(w, e.call, e.request, w');
      case Refused => NotUncounted(w.mem, e.call, e.request);
      case Crashed => CrashMisses(w.mem, e.call, e.request, m.inMemory);
    }
  }

  lemma NotUncounted(s: State, c: Call, r: Request)
    requires !StrandsWork(s, c, r)
    ensures !Uncounted(s, c, r)
  {
    hide StrandsWork;
  }

  predicate Counted(w: World, e: Event) { e.Arrived? ==> !Uncounted(w.mem, e.call, e.request) }

  /** Runs without such a crash miss no sale. */
  lemma {:induction false} CountedRunsMissNothing(ws: seq<World>, es: seq<Event>, i: nat)
    requires i <= |es| < |ws| && forall k :: 0 <= k < i ==> Counted(ws[k], es[k])
    ensures MissedBy(ws, es, i) == MissedSales({}, {})
  {
    hide Uncounted, Serve;
    if i > 0 {
      CountedRunsMissNothing(ws, es, i - 1);
      assert Counted(ws[i - 1], es[i - 1]);
    }
  }

  lemma EmptyMissesNothing()
    ensures MissesExactly(START, MissedSales({}, {}))
  {
    hide DrawerOk;
  }

  /**
   * Over every run, the totals of every customer are those of the stored sales except the uncounted ones that are still
   * there. So they equal those of all stored sales, in memory or on disk, exactly when no uncounted sale is left there.
   */
  lemma {:induction false} RunsKeepCustomers(ws: seq<World>, es: seq<Event>, i: nat)
    requires IsRun(ws, es) && i < |ws|
    ensures MissesExactly(ws[i], MissedBy(ws, es, i))
    ensures CustomersFaithful(ws[i].mem.selling) <==> MissedBy(ws, es, i).inMemory == {}
    ensures CustomersFaithful(Recovered(ws[i].disk).selling) <==> MissedBy(ws, es, i).onDisk == {}
  {
    hide Consistent, Step, Ahead, CustomersFaithful, Without, MissedStep, Recovered, SaleRefs;
    if i == 0 {
      EmptyMissesNothing();
    } else {
      RunsKeepCustomers(ws, es, i - 1);
      RunsStayConsistent(ws, es, i - 1);
      StepMisses(ws[i - 1], es[i - 1], ws[i], MissedBy(ws, es, i - 1));
    }
    RunsStayConsistent(ws, es, i);
    ConsistentRefs(ws[i].mem);
    ConsistentRefs(Recovered(ws[i].disk));
    MissedShows(ws[i].mem.selling, MissedBy(ws, es, i).inMemory);
    MissedShows(Recovered(ws[i].disk).selling, MissedBy(ws, es, i).onDisk);
  }

  // ---- settlement ----

  predicate SaneEvent(e: Event) { e.Arrived? ==> SaneRate(e.request) }

  predicate PlainEvent(e: Event) { e.Arrived? ==> NoRepeats(e.request) }

  lemma OwesSame(p: Purchasing)
    ensures OweNoMore(p, p)
  {
  }

  /** A step other than an accepted request changes neither purchasing nor the catalogue. */
  lemma StepSettlesNothing(w: World, e: Event, w': World)
    requires Sound(w) && Step(w, e, w')
    requires e.Arrived? ==> Serve(w.mem, e.call, e.request).verdict != Accepted
    ensures w'.mem.purchasing == w.mem.purchasing && w'.mem.registry == w.mem.registry
  {
    hide FreshIds, Consistent, Later, Restore, Serve, SnapshotOf;
    if e.Arrived? && Serve(w.mem, e.call, e.request).verdict == Crashed { CrashLeaves(w.mem, e.call, e.request); }
  }

  lemma StepKeepsSolvent(w: World, e: Event, w': World)
    requires Sound(w) && Solvent(w.mem) && Step(w, e, w') && SaneEvent(e)
    ensures Solvent(w'.mem) && OweNoMore(w.mem.purchasing, w'.mem.purchasing)
  {
    hide FreshIds, Consistent, Ahead, Restore, PaymentsSafe, RatesOk, OweNoMore, Apply, Blocked, ValidPayload, SaneRate,
        SnapshotOf;
    if e.Arrived? && Serve(w.mem, e.call, e.request).verdict == Accepted {
      AcceptedKeepsSolvent(w.mem, e.call, e.request);
    } else {
      OwesSame(w.mem.purchasing);
      StepSettlesNothing(w, e, w');
    }
  }

  /** Whatever the order of invoices, returns, payments, crashes and restarts, no invoice is ever paid beyond its total. */
  lemma {:induction false} RunsStaySolvent(ws: seq<World>, es: seq<Event>, i: nat)
    requires IsRun(ws, es) && i < |ws|
    requires forall k :: 0 <= k < |es| ==> SaneEvent(es[k])
    ensures Solvent(ws[i].mem)
  {
    hide Consistent, Ahead, Step, Solvent, SaneEvent, OweNoMore;
    if i == 0 {
      EmptyIsConsistent();
    } else {
      RunsStaySolvent(ws, es, i - 1);
      RunsStayConsistent(ws, es, i - 1);
      StepKeepsSolvent(ws[i - 1], es[i - 1], ws[i]);
    }
  }

  /** The outstanding amount of a stored invoice never increases again. */
  lemma {:induction false} RunsOweNoMore(ws: seq<World>, es: seq<Event>, i: nat, j: nat)
    requires IsRun(ws, es) && i <= j < |ws|
    requires forall k :: 0 <= k < |es| ==> SaneEvent(es[k])
    ensures OweNoMore(ws[i].mem.purchasing, ws[j].mem.purchasing)
    decreases j - i
  {
    hide Consistent, Ahead, Step, Solvent, SaneEvent, Owed;
    if i < j {
      RunsOweNoMore(ws, es, i, j - 1);
      RunsStaySolvent(ws, es, j - 1);
      RunsStayConsistent(ws, es, j - 1);
      StepKeepsSolvent(ws[j - 1], es[j - 1], ws[j]);
    }
  }

  lemma StepStaysBounded(w: World, e: Event, w': World)
    requires Sound(w) && ReturnsBounded(w.mem.purchasing) && Step(w, e, w') && PlainEvent(e)
    ensures ReturnsBounded(w'.mem.purchasing)
  {
    hide FreshIds, Consistent, Ahead, Restore, ReturnsBounded, Apply, Blocked, ValidPayload, NoRepeats, SnapshotOf;
    if e.Arrived? && Serve(w.mem, e.call, e.request).verdict == Accepted {
      AcceptedStaysBounded(w.mem, e.call, e.request);
    } else {
      StepSettlesNothing(w, e, w');
    }
  }

  /** Returns against an invoice never exceed what it invoiced, as long as no return request repeats a product. */
  lemma {:induction false} RunsStayBounded(ws: seq<World>, es: seq<Event>, i: nat)
    requires IsRun(ws, es) && i < |ws|
    requires forall k :: 0 <= k < |es| ==> PlainEvent(es[k])
    ensures ReturnsBounded(ws[i].mem.purchasing)
  {
    hide Consistent, Ahead, Step, ReturnsBounded, PlainEvent;
    if i == 0 {
      EmptyIsConsistent();
    } else {
      RunsStayBounded(ws, es, i - 1);
      RunsStayConsistent(ws, es, i - 1);
      StepStaysBounded(ws[i - 1], es[i - 1], ws[i]);
    }
  }
}
