/** Which tenants the middleware lets through, for one request and over whole runs. */
module TenantGate {
  import opened Inventory
  import opened StateModel
  import opened Handlers
  import opened Frames
  import opened Middleware
  import opened Runs
  import opened Lifecycles

  predicate IsSuspended(s: State, t: Id) { t in s.registry.tenants && s.registry.tenants[t].suspended }

  /** Requests on a tenant's own path: everything but creating a tenant or changing its status. */
  predicate OnTenantPath(r: Request) { !r.CreateTenant? && !r.SetTenantStatus? }

  /** A suspended tenant is refused whatever it asks for, and nothing changes, in memory or on disk. */
  lemma SuspendedIsShutOut(w: World, c: Call, r: Request, w': World)
    requires IsSuspended(w.mem, c.tenantId) && OnTenantPath(r) && Conclude(w, Serve(w.mem, c, r), w')
    ensures Serve(w.mem, c, r).verdict == Refused && w' == w
  {
  }

  /** Anyone else, a tenant that is not stored included, gets what the handler makes of a valid request. */
  lemma OthersAreServed(s: State, c: Call, r: Request)
    requires !IsSuspended(s, c.tenantId) || !OnTenantPath(r)
    ensures Serve(s, c, r) == if ValidPayload(r) then Apply(s, c, r) else Outcome(Refused, s)
  {
    hide Apply, ValidPayload;
  }

  /** The status of every stored tenant can be changed, and of no other. */
  lemma StatusCanBeSet(s: State, c: Call, t: Id, suspended: bool)
    ensures (Serve(s, c, SetTenantStatus(t, suspended)).verdict == Accepted <==> t in s.registry.tenants)
    ensures t in s.registry.tenants ==> (IsSuspended(Serve(s, c, SetTenantStatus(t, suspended)).state, t) <==> suspended)
  {
  }

  /**
   * Over every run, crashes and restarts included: from an accepted suspension until an accepted reactivation every
   * request on the tenant's path is refused and leaves memory and disk alone; before and after, and for tenants that are
   * not stored, every valid request gets the outcome of its handler.
   */
  lemma RunsLockOut(ws: seq<World>, es: seq<Event>, i: nat)
    requires IsRun(ws, es) && i < |es| && es[i].Arrived? && OnTenantPath(es[i].request)
    ensures var c, r := es[i].call, es[i].request;
            if LastMark(ws, es, i, TenantMark(c.tenantId), true)
            then Serve(ws[i].mem, c, r).verdict == Refused && ws[i + 1] == ws[i]
            else Serve(ws[i].mem, c, r) == if ValidPayload(r) then Apply(ws[i].mem, c, r) else Outcome(Refused, ws[i].mem)
  {
    hide LastMark, FreshIds, ValidPayload, Apply, SnapshotOf, Serve;
    var c, r := es[i].call, es[i].request;
    RunsSetTenants(ws, es, i, c.tenantId, true);
    assert Step(ws[i], es[i], ws[i + 1]);
    if IsSuspended(ws[i].mem, c.tenantId) {
      SuspendedIsShutOut(ws[i], c, r, ws[i + 1]);
    } else {
      OthersAreServed(ws[i].mem, c, r);
    }
  }
}
