/** `persist_state_middleware` (main.py): copy, handle, then save or roll back. */
module Middleware {
  import opened Folds
  import opened Numbering
  import opened StateModel
  import opened Handlers
  import opened AppStates

  /** The memory of the process and the file on disk. */
  datatype World = World(mem: State, disk: Option<Snapshot>)

  /** What `create_app` starts from. */
  function Recovered(disk: Option<Snapshot>): State
  {
    match disk case None => EMPTY case Some(snapshot) => Restore(snapshot)
  }

  ghost predicate InSync(w: World) { w.mem == Recovered(w.disk) }

  /** Platform paths carry no tenant, so the suspension check does not see them. */
  predicate IsPlatform(r: Request) { r.CreateTenant? || r.SetTenantStatus? }

  predicate Blocked(s: State, c: Call, r: Request)
  {
    !IsPlatform(r) && c.tenantId in s.registry.tenants && s.registry.tenants[c.tenantId].suspended
  }

  /** The handler's outcome, or a refusal by request validation. */
  ghost function Respond(s: State, c: Call, r: Request): Outcome
  {
    if ValidPayload(r) then Apply(s, c, r) else Outcome(Refused, s)
  }

  /** What the middleware sees: suspended tenants are refused before the handler runs. */
  ghost function Serve(s: State, c: Call, r: Request): Outcome
  {
    if Blocked(s, c, r) then Outcome(Refused, s) else Respond(s, c, r)
  }

  /** The middleware's part: save what an accepted handler left, undo what a refused one did, let a crash through. */
  ghost predicate Conclude(w: World, o: Outcome, w': World)
  {
    match o.verdict
    case Accepted => w'.mem == o.state && w'.disk.Some? && SnapshotOf(o.state, w'.disk.value)
    case Refused => w' == w
    case Crashed => w' == World(o.state, w.disk)
  }

  class Service {
    var state: AppState
    var disk: Option<Snapshot>

    function View(): World
      reads this, state, state.inventory
    {
      World(state.View(), disk)
    }

    constructor (saved: Option<Snapshot>)
      ensures View() == World(Recovered(saved), saved) && InSync(View())
      ensures fresh(state) && fresh(state.inventory)
    {
      disk := saved;
      state := new AppState(Recovered(saved));
    }

    /** `snapshot_state`: plain dictionaries as they are, the three others as lists of their values. */
    method TakeSnapshot() returns (snapshot: Snapshot)
      ensures SnapshotOf(state.View(), snapshot)
    {
      ghost var ks, js;
      var overrides, rules;
      ks, overrides := ListValues(state.catalogOverrides);
      js, rules := ListValues(state.reorderRules);
      ghost var cs;
      var counters;
      cs, counters := ListCounters(state.counters);
      snapshot := Snapshot(WithoutLists(state.View()), overrides, rules, counters);
    }

    method ListCounters(counters: Counters) returns (ghost ks: seq<(string, string)>, entries: seq<CounterEntry>)
      ensures ListsCounters(counters, ks, entries)
    {
      var keys, values := ListValues(counters);
      ks, entries := keys, [];
      for i := 0 to |keys|
        invariant |entries| == i
        invariant forall j :: 0 <= j < i ==> entries[j] == CounterEntry(keys[j].0, keys[j].1, counters[keys[j]])
      {
        entries := entries + [CounterEntry(keys[i].0, keys[i].1, values[i])];
      }
    }

    /** Request validation, then the handler. */
    method CallNext(c: Call, r: Request) returns (v: Verdict)
      requires forall k :: k in state.batchLots ==> state.batchLots[k].id == k
      modifies state, state.inventory
      ensures Outcome(v, state.View()) == Respond(old(state.View()), c, r)
    {
      hide Apply, ValidPayload;
      if !ValidPayload(r) { return Refused; }
      v := state.Handle(c, r);
    }

    /** One POST request, start to end. Lots are filed under their own ids in every consistent state. */
    method Post(c: Call, r: Request) returns (v: Verdict)
      requires forall k :: k in state.batchLots ==> state.batchLots[k].id == k
      modifies this, state, state.inventory
      ensures v == Serve(old(state.View()), c, r).verdict
      ensures Conclude(old(View()), Serve(old(state.View()), c, r), View())
      ensures state == old(state) || (fresh(state) && fresh(state.inventory))
    {
      hide Respond, SnapshotOf, Blocked;
      if Blocked(state.View(), c, r) { return Refused; }
      var before := new AppState(state.View());
      v := CallNext(c, r);
      match v {
        case Accepted =>
          var snapshot := TakeSnapshot();
          disk := Some(snapshot);
        case Refused => state := before;
        case Crashed =>
      }
    }
  }
}
