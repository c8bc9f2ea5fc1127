/** The licence gate of one release surface: classify, except, re-count (license_compliance.py). */
module Licenses {
  import opened Folds

  datatype Status = Allowed | ReviewRequired | Denied | Unknown

  datatype Policy =
    Policy(allowed: set<string>, reviewRequired: set<string>, denied: set<string>, reviewBlocks: bool, failOnUnknown: bool)

  datatype Component = Component(name: string, version: Option<string>, licenses: seq<string>)

  datatype Finding = Finding(package: string, version: Option<string>, license: string, licenses: seq<string>,
      status: Status)

  datatype Exception = Exception(surface: Option<string>, package: Option<string>, license: Option<string>,
      expiresOn: Option<int>)

  datatype Summary = Summary(allowed: int, reviewRequired: int, denied: int, unknown: int)

  datatype SurfaceResult = SurfaceResult(passed: bool, componentCount: nat, summary: Summary, findings: seq<Finding>)

  function StatusOf(p: Policy): string -> Status
  {
    (l: string) =>
      if l in p.denied then Denied
      else if l in p.reviewRequired then ReviewRequired
      else if l in p.allowed then Allowed
      else Unknown
  }

  /** The worst status among the licences: denied, then review required, then unknown. */
  function Classify(licenses: seq<string>, p: Policy): Status
  {
    var statuses := Map(licenses, StatusOf(p));
    if |licenses| == 0 then Unknown
    else if Denied in statuses then Denied
    else if ReviewRequired in statuses then ReviewRequired
    else if Unknown in statuses then Unknown
    else Allowed
  }

  /** A component is allowed exactly when it has a licence and every one is on the allowed list and no other. */
  lemma AllowedExactly(licenses: seq<string>, p: Policy)
    ensures Classify(licenses, p) == Allowed
       <==> |licenses| > 0 && forall l :: l in licenses ==> l in p.allowed && l !in p.denied && l !in p.reviewRequired
    ensures Classify(licenses, p) == Denied <==> exists l :: l in licenses && l in p.denied
  {
    var statuses := Map(licenses, StatusOf(p));
    forall l | l in licenses ensures StatusOf(p)(l) in statuses {
      var i :| 0 <= i < |licenses| && licenses[i] == l;
      assert statuses[i] == StatusOf(p)(l);
    }
    forall s | s in statuses ensures exists l :: l in licenses && StatusOf(p)(l) == s {
      var i :| 0 <= i < |statuses| && statuses[i] == s;
      assert licenses[i] in licenses;
    }
  }

  function Joined(licenses: seq<string>): string
  {
    if |licenses| == 0 then "" else if |licenses| == 1 then licenses[0]
    else Joined(licenses[..|licenses| - 1]) + ", " + licenses[|licenses| - 1]
  }

  function LabelOf(c: Component): string { if |c.licenses| > 0 then Joined(c.licenses) else "UNKNOWN" }

  function FindingOf(p: Policy): Component -> Finding
  {
    (c: Component) =>
      Finding(c.name, c.version, LabelOf(c), c.licenses, Classify(c.licenses, p))
  }

  function NotAllowed(p: Policy): Component -> bool { (c: Component) => Classify(c.licenses, p) != Allowed }

  function AllFindings(cs: seq<Component>, p: Policy): seq<Finding> { FilterMap(cs, NotAllowed(p), FindingOf(p)) }

  predicate Applies(e: Exception, surface: string) { e.surface == Some(surface) }

  predicate Expired(e: Exception, today: int) { e.expiresOn.Some? && e.expiresOn.value < today }

  predicate Excepts(e: Exception, f: Finding) { e.package == Some(f.package) && e.license == Some(f.license) }

  predicate AnyExpired(es: seq<Exception>, surface: string, today: int)
  {
    exists e :: e in es && Applies(e, surface) && Expired(e, today)
  }

  /** No exception of the surface names the finding. */
  function Survives(es: seq<Exception>, surface: string): Finding -> bool
  {
    (f: Finding) => forall e :: e in es && Applies(e, surface) ==> !Excepts(e, f)
  }

  function Surviving(fs: seq<Finding>, es: seq<Exception>, surface: string): seq<Finding>
  {
    FilterMap(fs, Survives(es, surface), Whole())
  }

  predicate Blocking(s: Status, p: Policy)
  {
    match s case Denied => true case ReviewRequired => p.reviewBlocks case Unknown => p.failOnUnknown case Allowed => false
  }

  function Spared(e: Exception): Finding -> bool { (f: Finding) => !Excepts(e, f) }

  lemma {:induction false} FilterTwice(fs: seq<Finding>, es: seq<Exception>, e: Exception, surface: string)
    ensures Applies(e, surface) ==>
      FilterMap(Surviving(fs, es, surface), Spared(e), Whole()) == Surviving(fs, es + [e], surface)
    ensures !Applies(e, surface) ==> Surviving(fs, es, surface) == Surviving(fs, es + [e], surface)
  {
    if |fs| > 0 {
      var n := |fs| - 1;
      var f, kept := fs[n], Surviving(fs[..n], es, surface);
      FilterTwice(fs[..n], es, e, surface);
      assert Survives(es + [e], surface)(f) == (Survives(es, surface)(f) && (Applies(e, surface) ==> !Excepts(e, f)));
      assert (kept + [f])[..|kept|] == kept;
    }
  }

  lemma {:induction false} AllSurvive(fs: seq<Finding>, surface: string)
    ensures Surviving(fs, [], surface) == fs
  {
    if |fs| > 0 {
      AllSurvive(fs[..|fs| - 1], surface);
      assert fs == fs[..|fs| - 1] + [fs[|fs| - 1]];
    }
  }

  /** `apply_license_exceptions`; `None` stands for the error raised on an expired exception of the surface. */
  method ApplyLicenseExceptions(surface: string, fs: seq<Finding>, es: seq<Exception>,
      today: int) returns (r: Option<seq<Finding>>)
    ensures r == if AnyExpired(es, surface, today) then None else Some(Surviving(fs, es, surface))
  {
    hide Surviving;
    var kept := fs;
    AllSurvive(fs, surface);
    for i := 0 to |es|
      invariant !AnyExpired(es[..i], surface, today) && kept == Surviving(fs, es[..i], surface)
    {
      var e := es[i];
      assert es[..i + 1] == es[..i] + [e];
      FilterTwice(fs, es[..i], e, surface);
      if Applies(e, surface) {
        if Expired(e, today) {
          assert e in es;
          return None;
        }
        kept := Select(kept, Spared(e));
      }
    }
    assert es[..|es|] == es;
    r := Some(kept);
  }

  // ---- counting ----

  function IsStatus(s: Status): Finding -> int { (f: Finding) => if f.status == s then 1 else 0 }
  function IsComponent(s: Status, p: Policy): Component -> int
  {
    (c: Component) => if Classify(c.licenses, p) == s then 1 else 0
  }

  function Bump(m: Summary, s: Status, step: int): Summary
  {
    match s
    case Allowed => m.(allowed := m.allowed + step)
    case ReviewRequired => m.(reviewRequired := m.reviewRequired + step)
    case Denied => m.(denied := m.denied + step)
    case Unknown => m.(unknown := m.unknown + step)
  }

  function Count(m: Summary, s: Status): int
  {
    match s
    case Allowed => m.allowed
    case ReviewRequired => m.reviewRequired
    case Denied => m.denied
    case Unknown => m.unknown
  }

  method ScanComponents(cs: seq<Component>, p: Policy) returns (m: Summary, fs: seq<Finding>)
    ensures fs == AllFindings(cs, p)
    ensures forall s :: Count(m, s) == Sum(cs, IsComponent(s, p))
  {
    hide Sum, FilterMap, Classify;
    m, fs := Summary(0, 0, 0, 0), [];
    FilterMapEmpty(cs[..0], NotAllowed(p), FindingOf(p));
    forall s { SumEmpty(cs[..0], IsComponent(s, p)); }
    for i := 0 to |cs|
      invariant fs == FilterMap(cs[..i], NotAllowed(p), FindingOf(p))
      invariant forall s :: Count(m, s) == Sum(cs[..i], IsComponent(s, p))
    {
      var status := Classify(cs[i].licenses, p);
      FilterMapPrefix(cs, i, NotAllowed(p), FindingOf(p));
      forall s { SumPrefix(cs, i, IsComponent(s, p)); }
      m := Bump(m, status, 1);
      if status != Allowed { fs := fs + [FindingOf(p)(cs[i])]; }
    }
    assert cs[..|cs|] == cs;
  }

  function Gone(kept: seq<Finding>): Finding -> bool { (f: Finding) => f !in kept }

  method Recount(m: Summary, fs: seq<Finding>, kept: seq<Finding>) returns (m': Summary)
    ensures forall s :: s != Allowed ==> Count(m', s) == Count(m, s) - Sum(FilterMap(fs, Gone(kept), Whole()), IsStatus(s))
    ensures Count(m', Allowed) == Count(m, Allowed) - Sum(FilterMap(fs, Gone(kept), Whole()), IsStatus(Allowed))
                                + |FilterMap(fs, Gone(kept), Whole())|
  {
    hide Sum, FilterMap;
    m' := m;
    ghost var removed: seq<Finding> := [];
    FilterMapEmpty(fs[..0], Gone(kept), Whole<Finding>());
    forall s { SumEmpty(removed, IsStatus(s)); }
    for i := 0 to |fs|
      invariant removed == FilterMap(fs[..i], Gone(kept), Whole())
      invariant forall s :: s != Allowed ==> Count(m', s) == Count(m, s) - Sum(removed, IsStatus(s))
      invariant Count(m', Allowed) == Count(m, Allowed) - Sum(removed, IsStatus(Allowed)) + |removed|
    {
      var f := fs[i];
      FilterMapPrefix(fs, i, Gone(kept), Whole<Finding>());
      if f !in kept {
        forall s { SumSnoc(removed, f, IsStatus(s)); }
        removed := removed + [f];
        m' := Bump(Bump(m', f.status, -1), Allowed, 1);
      }
    }
    assert fs[..|fs|] == fs;
  }

  /** What the result of a surface must say, given that no exception of the surface has expired. */
  ghost predicate Faithful(cs: seq<Component>, p: Policy, surface: string, es: seq<Exception>, r: SurfaceResult)
  {
    && r.componentCount == |cs|
    && r.findings == Surviving(AllFindings(cs, p), es, surface)
    && r.summary.denied == Sum(r.findings, IsStatus(Denied)) && r.summary.unknown == Sum(r.findings, IsStatus(Unknown))
    && r.summary.reviewRequired == Sum(r.findings, IsStatus(ReviewRequired))
    && r.summary.allowed == |cs| - |r.findings|
    && (r.passed <==> forall f :: f in r.findings ==> !Blocking(f.status, p))
  }

  lemma {:induction false} RemovedAndKept(fs: seq<Finding>, es: seq<Exception>, surface: string, g: Finding -> int)
    ensures var kept := Surviving(fs, es, surface);
            Sum(fs, g) == Sum(kept, g) + Sum(FilterMap(fs, Gone(kept), Whole()), g)
  {
    hide Sum, FilterMap;
    var kept := Surviving(fs, es, surface);
    forall f | f in fs ensures f in kept <==> Survives(es, surface)(f) {
      FilterMapMember(fs, Survives(es, surface), Whole(), f);
      var i :| 0 <= i < |fs| && fs[i] == f;
    }
    FilterMapSum(fs, Survives(es, surface), Whole(), g, Only(g, Survives(es, surface)));
    FilterMapSum(fs, Gone(kept), Whole(), g, Only(g, Gone(kept)));
    SumAdd(fs, Only(g, Survives(es, surface)), Only(g, Gone(kept)), g);
  }

  function Only(g: Finding -> int, keep: Finding -> bool): Finding -> int { (f: Finding) => if keep(f) then g(f) else 0 }

  lemma {:induction false} FindingsCounted(cs: seq<Component>, p: Policy, s: Status)
    ensures s != Allowed ==> Sum(AllFindings(cs, p), IsStatus(s)) == Sum(cs, IsComponent(s, p))
    ensures Sum(AllFindings(cs, p), IsStatus(Allowed)) == 0
    ensures |AllFindings(cs, p)| == |cs| - Sum(cs, IsComponent(Allowed, p))
  {
    hide Sum, FilterMap, Classify;
    if s != Allowed { FilterMapSum(cs, NotAllowed(p), FindingOf(p), IsStatus(s), IsComponent(s, p)); }
    FilterMapSum(cs, NotAllowed(p), FindingOf(p), IsStatus(Allowed), NoneAllowed());
    SumZero(cs, NoneAllowed());
    FilterMapSum(cs, NotAllowed(p), FindingOf(p), One(), OneRejected(p));
    SumAdd(cs, OneRejected(p), IsComponent(Allowed, p), One());
    CountIsLength(cs);
    CountIsLength(AllFindings(cs, p));
  }

  function NoneAllowed(): Component -> int { (c: Component) => 0 }
  function OneRejected(p: Policy): Component -> int
  {
    (c: Component) => if Classify(c.licenses, p) != Allowed then 1 else 0
  }

  /** After the recount a status other than allowed counts the survivors, and allowed counts everything else. */
  lemma {:induction false} RecountMeans(cs: seq<Component>, p: Policy, es: seq<Exception>, surface: string, s: Status)
    ensures var fs := AllFindings(cs, p);
            var kept := Surviving(fs, es, surface);
            var removed := FilterMap(fs, Gone(kept), Whole());
            && (s != Allowed ==> Sum(cs, IsComponent(s, p)) - Sum(removed, IsStatus(s)) == Sum(kept, IsStatus(s)))
            && Sum(cs, IsComponent(Allowed, p)) - Sum(removed, IsStatus(Allowed)) + |removed| == |cs| - |kept|
  {
    hide Sum, FilterMap, Classify;
    var fs := AllFindings(cs, p);
    var kept := Surviving(fs, es, surface);
    var removed := FilterMap(fs, Gone(kept), Whole());
    FindingsCounted(cs, p, s);
    RemovedAndKept(fs, es, surface, IsStatus(s));
    RemovedAndKept(fs, es, surface, IsStatus(Allowed));
    RemovedAndKept(fs, es, surface, One());
    CountIsLength(fs);
    CountIsLength(kept);
    CountIsLength(removed);
    SumNonNegative(kept, IsStatus(Allowed));
    SumNonNegative(removed, IsStatus(Allowed));
  }

  method BuildSurfaceResult(cs: seq<Component>, p: Policy, surface: string, es: seq<Exception>, today: int)
    returns (r: Option<SurfaceResult>)
    ensures r.None? <==> AnyExpired(es, surface, today)
    ensures r.Some? ==> Faithful(cs, p, surface, es, r.value)
  {
    hide Sum, FilterMap, Classify, AnyExpired, AllFindings;
    var m, fs := ScanComponents(cs, p);
    var kept := ApplyLicenseExceptions(surface, fs, es, today);
    if kept.None? { return None; }
    var m' := Recount(m, fs, kept.value);
    RecountMeans(cs, p, es, surface, Denied);
    RecountMeans(cs, p, es, surface, Unknown);
    RecountMeans(cs, p, es, surface, ReviewRequired);
    var passed := forall f :: f in kept.value ==> !Blocking(f.status, p);
    r := Some(SurfaceResult(passed, |cs|, m', kept.value));
  }

  function Listed(): Finding -> int { (f: Finding) => IsStatus(Denied)(f) + IsStatus(Unknown)(f) }
  function Rejected(): Finding -> int { (f: Finding) => Listed()(f) + IsStatus(ReviewRequired)(f) }

  /** Exceptions move components to the allowed count and lose none: the four counts add up, none is negative. */
  lemma SummaryIsConserved(cs: seq<Component>, p: Policy, surface: string, es: seq<Exception>, r: SurfaceResult)
    requires Faithful(cs, p, surface, es, r)
    ensures r.summary.allowed + r.summary.reviewRequired + r.summary.denied + r.summary.unknown == r.componentCount
    ensures forall s :: Count(r.summary, s) >= 0
  {
    hide Sum, FilterMap, Classify;
    var fs, kept := AllFindings(cs, p), r.findings;
    forall s { SumNonNegative(kept, IsStatus(s)); }
    SumAdd(kept, IsStatus(Denied), IsStatus(Unknown), Listed());
    SumAdd(kept, Listed(), IsStatus(ReviewRequired), Rejected());
    SumAdd(kept, Rejected(), IsStatus(Allowed), One());
    CountIsLength(kept);
    CountIsLength(fs);
    FindingsCounted(cs, p, Allowed);
    RemovedAndKept(fs, es, surface, One());
    RemovedAndKept(fs, es, surface, IsStatus(Allowed));
    var removed := FilterMap(fs, Gone(kept), Whole());
    SumNonNegative(removed, One());
    SumNonNegative(removed, IsStatus(Allowed));
    SumNonNegative(cs, IsComponent(Allowed, p));
  }

  /** The order in which exceptions are listed, and repeating one, never matters: not for expiry and not for the result. */
  lemma ExceptionOrderIsIrrelevant(cs: seq<Component>, p: Policy, surface: string, es: seq<Exception>, es': seq<Exception>,
                                   today: int, r: SurfaceResult, r': SurfaceResult)
    requires forall e :: e in es <==> e in es'
    ensures AnyExpired(es, surface, today) <==> AnyExpired(es', surface, today)
    ensures Faithful(cs, p, surface, es, r) && Faithful(cs, p, surface, es', r') ==> r == r'
  {
    hide Sum, FilterMap, Classify;
    SameSurvivors(AllFindings(cs, p), es, es', surface);
  }

  lemma {:induction false} SameSurvivors(fs: seq<Finding>, es: seq<Exception>, es': seq<Exception>, surface: string)
    requires forall e :: e in es <==> e in es'
    ensures Surviving(fs, es, surface) == Surviving(fs, es', surface)
  {
    if |fs| > 0 {
      SameSurvivors(fs[..|fs| - 1], es, es', surface);
      assert Survives(es, surface)(fs[|fs| - 1]) == Survives(es', surface)(fs[|fs| - 1]);
    }
  }

  // ---- the gate, from the policy's lists ----

  predicate HasListed(licenses: seq<string>, list: set<string>) { exists l :: l in licenses && l in list }

  /** What keeps a component out: the worst list one of its licences is on, as far as the policy blocks on it. */
  predicate Objectionable(c: Component, p: Policy)
  {
    || HasListed(c.licenses, p.denied)
    || (p.reviewBlocks && !HasListed(c.licenses, p.denied) && HasListed(c.licenses, p.reviewRequired))
    || (p.failOnUnknown && !HasListed(c.licenses, p.denied + p.reviewRequired)
        && (|c.licenses| == 0 || exists l :: l in c.licenses && l !in p.allowed))
  }

  /** An exception of the surface names the package and all of its licences. */
  predicate Exempt(es: seq<Exception>, surface: string, c: Component)
  {
    exists e :: e in es && e.surface == Some(surface) && e.package == Some(c.name) && e.license == Some(LabelOf(c))
  }

  lemma {:induction false} BlockingExactly(c: Component, p: Policy)
    ensures Classify(c.licenses, p) != Allowed && Blocking(Classify(c.licenses, p), p) <==> Objectionable(c, p)
  {
    var statuses := Map(c.licenses, StatusOf(p));
    forall l | l in c.licenses ensures StatusOf(p)(l) in statuses {
      var i :| 0 <= i < |c.licenses| && c.licenses[i] == l;
      assert statuses[i] == StatusOf(p)(l);
    }
    forall s | s in statuses ensures exists l :: l in c.licenses && StatusOf(p)(l) == s {
      var i :| 0 <= i < |statuses| && statuses[i] == s;
      assert c.licenses[i] in c.licenses;
    }
  }

  /** A surface passes exactly when every component the policy objects to is exempt. */
  lemma {:induction false} PassesExactly(cs: seq<Component>, p: Policy, surface: string, es: seq<Exception>,
                                         r: SurfaceResult)
    requires Faithful(cs, p, surface, es, r)
    ensures r.passed <==> forall c :: c in cs && Objectionable(c, p) ==> Exempt(es, surface, c)
  {
    hide FilterMap, Sum, Classify, Objectionable, Blocking;
    forall f ensures f in r.findings <==> exists c :: c in cs && Finds(c, p, es, surface, f) {
      FoundExactly(cs, p, surface, es, f);
    }
    forall c | c in cs
      ensures Objectionable(c, p) && !Exempt(es, surface, c)
         <==> Finds(c, p, es, surface, FindingOf(p)(c)) && Blocking(FindingOf(p)(c).status, p)
    {
      BlockingExactly(c, p);
    }
    if !r.passed {
      var f :| f in r.findings && Blocking(f.status, p);
      var c :| c in cs && Finds(c, p, es, surface, f);
      assert f == FindingOf(p)(c);
    }
  }

  predicate Finds(c: Component, p: Policy, es: seq<Exception>, surface: string, f: Finding)
  {
    Classify(c.licenses, p) != Allowed && f == FindingOf(p)(c) && !Exempt(es, surface, c)
  }

  lemma {:induction false} FoundExactly(cs: seq<Component>, p: Policy, surface: string, es: seq<Exception>, f: Finding)
    ensures f in Surviving(AllFindings(cs, p), es, surface) <==> exists c :: c in cs && Finds(c, p, es, surface, f)
  {
    hide FilterMap, Classify;
    var fs := AllFindings(cs, p);
    FilterMapMember(fs, Survives(es, surface), Whole(), f);
    FilterMapMember(cs, NotAllowed(p), FindingOf(p), f);
    if f in Surviving(fs, es, surface) {
      var i :| 0 <= i < |cs| && NotAllowed(p)(cs[i]) && FindingOf(p)(cs[i]) == f;
      assert cs[i] in cs && Finds(cs[i], p, es, surface, f);
    }
    if c :| c in cs && Finds(c, p, es, surface, f) {
      var i :| 0 <= i < |cs| && cs[i] == c;
      assert NotAllowed(p)(cs[i]) && f in fs;
      var j :| 0 <= j < |fs| && fs[j] == f;
      assert Survives(es, surface)(fs[j]);
    }
  }

  /** An exception still holds on the day it expires on; from the next day on it fails the surface. */
  lemma ExpiresAfterTheDay(e: Exception, surface: string, day: int, today: int)
    requires e.surface == Some(surface) && e.expiresOn == Some(day)
    ensures AnyExpired([e], surface, today) <==> day < today
  {
    assert e in [e];
  }
}
