/**
 What a tenant's worker can rely on while others act: users, Octavia, the
 workers of other tenants and the cluster controller. `Calm` lists it; a request
 is `Safe` when, whatever others do before it is served, the service accepting
 it makes it an allowed action of the protocol.
 */
module Rely {
  import opened Finalizers
  import opened Listeners
  import opened Tags

  ghost predicate Calm(a: State, b: State, t: string) {
    && a.nextId <= b.nextId && a.condemned <= b.condemned && a.recreated <= b.recreated && SameReading(a, b, t)
    && (forall o: Owner :: o.cluster == t ==> (Claimed(a, o) <==> Claimed(b, o)))
    && (forall id :: id in a.owners ==> id in b.owners && b.owners[id] == a.owners[id])
    && (forall id :: id in b.lbs && b.lbs[id].owner.cluster == t ==> Undisturbed(a, b, id))
    && (forall id :: id in a.owners && a.owners[id].cluster == t && PortFree(a, id) ==> PortFree(b, id))
    && (forall id, o: Owner :: o.cluster == t && Standing(a, id, o) ==> Standing(b, id, o) || t in b.condemned)
    && (forall f :: f in b.fips ==> if f in a.fips then b.fips[f] == a.fips[f] else a.nextId <= f)
  }

  predicate SameReading(a: State, b: State, t: string) {
    (t in a.readings <==> t in b.readings) && (t in a.readings ==> b.readings[t] == a.readings[t])
  }

  /** A balancer of the tenant changed at most its status. */
  ghost predicate Undisturbed(a: State, b: State, id: nat)
    requires id in b.lbs
  {
    id in a.lbs && b.lbs[id] == a.lbs[id].(status := b.lbs[id].status)
  }

  lemma CalmRefl(s: State, t: string)
    ensures Calm(s, s, t)
  {
  }

  lemma CalmTrans(a: State, b: State, c: State, t: string)
    requires Inv(a) && Calm(a, b, t) && Calm(b, c, t)
    ensures Calm(a, c, t)
  {
    FIPsBounded(a);
    forall id | id in c.lbs && c.lbs[id].owner.cluster == t ensures Undisturbed(a, c, id) {
      assert Undisturbed(b, c, id) && Undisturbed(a, b, id);
    }
  }

  lemma LBsBounded(s: State)
    requires Inv(s)
    ensures forall id :: id in s.lbs ==> id < s.nextId && Known(s, id, s.lbs[id].owner)
  {
  }

  lemma FIPsBounded(s: State)
    requires Inv(s)
    ensures forall f :: f in s.fips ==> f < s.nextId
  {
  }

  /** What the pass has read, and what it claimed, is not for others to change. */
  lemma PassKept(a: State, b: State, o: Owner)
    requires Calm(a, b, o.cluster)
    ensures SameReading(a, b, o.cluster) && (Claimed(a, o) <==> Claimed(b, o))
    ensures (Providing(a, o) ==> Providing(b, o)) && (Cleaning(a, o) ==> Cleaning(b, o))
    ensures Dismissed(a, o) ==> Dismissed(b, o)
  {
  }

  lemma NoPortNoFIP(s: State, id: nat)
    requires Inv(s) && id in s.lbs && !s.lbs[id].hasPort
    ensures PortFree(s, id)
  {
    forall f | f in s.fips ensures s.fips[f].port != id {
      assert FIPOk(s, f);
    }
  }

  lemma StepIsCalm(s: State, a: Action, t: string)
    requires Inv(s) && Enabled(s, a) && !OfWorker(a, t)
    ensures Calm(s, Apply(s, a), t)
  {
    if OnCloud(a) {
      LBsBounded(s);
      FIPsBounded(s);
      CloudIsCalm(s, a, t);
    } else {
      SameCloudIsCalm(s, a, t);
    }
  }

  lemma SameCloudIsCalm(s: State, a: Action, t: string)
    requires Enabled(s, a) && !OfWorker(a, t) && !OnCloud(a)
    ensures Calm(s, Apply(s, a), t)
  {
    if OnServices(a) {
      FrameServices(s, a);
      forall o: Owner | o.cluster == t ensures Claimed(s, o) <==> Claimed(Apply(s, a), o) {
        ClaimUntouched(s, a, t, o);
      }
    } else if OnReleases(a) {
      FrameReleases(s, a);
    } else {
      FrameReads(s, a);
      ReadingUntouched(s, a, t);
    }
  }

  lemma ReadingUntouched(s: State, a: Action, t: string)
    requires OnReads(a) && MayOnReads(s, a) && !OfWorker(a, t)
    ensures SameReading(s, OnReadsNext(s, a), t)
  {
  }

  lemma ClaimUntouched(s: State, a: Action, t: string, o: Owner)
    requires OnServices(a) && Enabled(s, a) && !OfWorker(a, t) && o.cluster == t
    ensures Claimed(s, o) <==> Claimed(Apply(s, a), o)
  {
  }

  lemma CloudIsCalm(s: State, a: Action, t: string)
    requires Enabled(s, a) && !OfWorker(a, t) && OnCloud(a)
    requires forall id :: id in s.lbs ==> id < s.nextId && Known(s, id, s.lbs[id].owner)
    requires (forall id :: id in s.owners ==> id < s.nextId) && (forall f :: f in s.fips ==> f < s.nextId)
    ensures Calm(s, Apply(s, a), t)
  {
    var s' := Apply(s, a);
    FrameCloud(s, a);
    forall id | id in s'.lbs && s'.lbs[id].owner.cluster == t ensures Undisturbed(s, s', id) {
      OnlyStatusChanges(s, a, t, id);
    }
    forall id | id in s.owners && s.owners[id].cluster == t && PortFree(s, id) ensures PortFree(s', id) {
      PortStaysFree(s, a, t, id);
    }
    forall id, o: Owner | o.cluster == t && Standing(s, id, o) ensures Standing(s', id, o) || t in s'.condemned {
      StandingStays(s, a, t, id, o);
    }
    OnlyNewIds(s, a);
  }

  lemma StandingStays(s: State, a: Action, t: string, id: nat, o: Owner)
    requires Enabled(s, a) && !OfWorker(a, t) && OnCloud(a)
    requires id < s.nextId && o.cluster == t && Standing(s, id, o)
    ensures Standing(Apply(s, a), id, o) || t in s.condemned
  {
  }

  lemma OnlyNewIds(s: State, a: Action)
    requires Enabled(s, a) && OnCloud(a)
    requires (forall id :: id in s.owners ==> id < s.nextId) && (forall f :: f in s.fips ==> f < s.nextId)
    ensures var s' := Apply(s, a);
            && (forall id :: id in s.owners ==> id in s'.owners && s'.owners[id] == s.owners[id])
            && (forall f :: f in s'.fips ==> if f in s.fips then s'.fips[f] == s.fips[f] else s.nextId <= f)
  {
  }

  lemma PortStaysFree(s: State, a: Action, t: string, id: nat)
    requires Enabled(s, a) && !OfWorker(a, t) && OnCloud(a)
    requires id in s.owners && s.owners[id].cluster == t && PortFree(s, id)
    ensures PortFree(Apply(s, a), id)
  {
  }

  lemma OnlyStatusChanges(s: State, a: Action, t: string, id: nat)
    requires Enabled(s, a) && !OfWorker(a, t) && OnCloud(a)
    requires id in Apply(s, a).lbs && Apply(s, a).lbs[id].owner.cluster == t
    ensures id in s.lbs && Apply(s, a).lbs[id] == s.lbs[id].(status := Apply(s, a).lbs[id].status)
  {
  }

  // ---------------------------------------------------------------- requests

  /** The service carries the request out, as far as the service is concerned. */
  predicate Accepts(s: State, a: Action) {
    match a
    case AddFinalizer(o, _) => o in s.services && !s.services[o].deleting
    case DropFinalizer(o, seen, _) =>
      o in s.services && (s.services[o].deleting ==> seen - {FINALIZER} <= s.services[o].finalizers)
    case SetIngress(o, _) => o in s.services
    case CreateLB(_, _, _) => true
    case ChangeLB(_, id, _) => id in s.lbs && s.lbs[id].status == Active
    case DeleteLB(_, id) => id in s.lbs && s.lbs[id].status in {Active, Error}
    case CreateFIP(_, port, _) => PortFree(s, port)
    case DeleteFIP(_, id) => id in s.fips
    case _ => false
  }

  ghost predicate Safe(s: State, a: Action, t: string) {
    forall s' :: Inv(s') && Calm(s, s', t) && Accepts(s', a) ==> Enabled(s', a)
  }

  lemma SafeCreateLB(s: State, o: Owner, hasPort: bool, address: string)
    requires o.Wf() && Providing(s, o) && Claimed(s, o) && NoLB(s, o)
    ensures Safe(s, CreateLB(o, hasPort, address), o.cluster)
  {
  }

  lemma NoLBKept(s: State, s': State, o: Owner)
    requires Calm(s, s', o.cluster) && NoLB(s, o)
    ensures NoLB(s', o)
  {
  }

  lemma SafeDropFinalizer(s: State, o: Owner, seen: set<string>, clean: bool)
    requires if clean then Cleaning(s, o) && NoLB(s, o) else Dismissed(s, o)
    ensures Safe(s, DropFinalizer(o, seen, clean), o.cluster)
  {
  }

  lemma KnownKept(s: State, s': State, id: nat, o: Owner)
    requires Known(s, id, o) && Calm(s, s', o.cluster)
    ensures Known(s', id, o) && (PortFree(s, id) ==> PortFree(s', id))
  {
  }

  lemma KnownIs(s: State, id: nat, o: Owner)
    requires Inv(s) && Known(s, id, o) && id in s.lbs
    ensures s.lbs[id].owner == o && ValidView(s.lbs[id].view)
  {
  }

  lemma SafeDeleteLB(s: State, id: nat, o: Owner)
    requires Cleaning(s, o) && Known(s, id, o) && PortFree(s, id)
    ensures Safe(s, DeleteLB(o, id), o.cluster)
  {
    forall s' | Inv(s') && Calm(s, s', o.cluster) && Accepts(s', DeleteLB(o, id)) ensures Enabled(s', DeleteLB(o, id)) {
      assert LBOk(s', id);
    }
  }

  /** The worker's hold on a balancer it has seen: still standing, or its tenant is being torn down. */
  predicate Grip(s: State, id: nat, o: Owner) {
    BoundAside(s, id, o) && (Standing(s, id, o) || o.cluster in s.condemned)
  }

  lemma GripKept(s: State, s': State, id: nat, o: Owner)
    requires Grip(s, id, o) && Calm(s, s', o.cluster) && Inv(s')
    ensures Grip(s', id, o)
  {
  }

  lemma SafeCreateFIP(s: State, o: Owner, id: nat, address: string)
    requires Grip(s, id, o) && Providing(s, o) && Claimed(s, o)
    ensures Safe(s, CreateFIP(o, id, address), o.cluster)
  {
    var a := CreateFIP(o, id, address);
    forall s' | Inv(s') && Calm(s, s', o.cluster) && Accepts(s', a) ensures Enabled(s', a) {
      GripKept(s, s', id, o);
    }
  }

  lemma SafeDeleteFIP(s: State, f: nat, o: Owner)
    requires Cleaning(s, o) && f in s.fips && f < s.nextId && s.fips[f].owner == o
    ensures Safe(s, DeleteFIP(o, f), o.cluster)
  {
  }

  lemma SafeEdits(s: State, o: Owner, seen: set<string>, ingress: seq<string>)
    ensures Providing(s, o) ==> Safe(s, AddFinalizer(o, seen), o.cluster)
    ensures (if ingress == [] then Cleaning(s, o) else Providing(s, o)) ==> Safe(s, SetIngress(o, ingress), o.cluster)
  {
  }

  // ---------------------------------------------------------------- what a pass leaves alone

  /** Reading for a pass over this Service, or changing it or its balancer or address. */
  predicate ActsFor(a: Action, o: Owner) {
    OfWorker(a, o.cluster) && (a.ReadConfig? || a.ReadRelease? || a.o == o)
  }

  /** Octavia working on the Service's balancer. */
  predicate OnBalancerOf(s: State, a: Action, o: Owner) {
    (a.Settle? || a.Vanish?) && a.id in s.lbs && s.lbs[a.id].owner == o
  }

  /** Every balancer, address and Service but one is the same, and so are all configurations and releases. */
  ghost predicate Aside(a: State, b: State, o: Owner) {
    && SameButLBs(a.lbs, b.lbs, o) && SameButFIPs(a.fips, b.fips, o)
    && (forall p :: p != o ==> (p in b.services <==> p in a.services)
                               && (p in a.services ==> b.services[p] == a.services[p]))
    && b.configs == a.configs && b.releases == a.releases
    && b.condemned == a.condemned && b.recreated == a.recreated
  }

  ghost predicate SameButLBs(a: map<nat, LB>, b: map<nat, LB>, o: Owner) {
    && (forall id :: id in a && a[id].owner != o ==> id in b && b[id] == a[id])
    && (forall id :: id in b && b[id].owner != o ==> id in a && a[id] == b[id])
  }

  ghost predicate SameButFIPs(a: map<nat, FIP>, b: map<nat, FIP>, o: Owner) {
    && (forall f :: f in a && a[f].owner != o ==> f in b && b[f] == a[f])
    && (forall f :: f in b && b[f].owner != o ==> f in a && a[f] == b[f])
  }

  lemma AsideTrans(a: State, b: State, c: State, o: Owner)
    requires Aside(a, b, o) && Aside(b, c, o)
    ensures Aside(a, c, o)
  {
  }

  /** What a worker does in a pass over one Service, and Octavia to its balancer, leaves all else alone. */
  lemma OwnResourcesOnly(s: State, a: Action, o: Owner)
    requires Inv(s) && Enabled(s, a) && (ActsFor(a, o) || OnBalancerOf(s, a, o))
    ensures Aside(s, Apply(s, a), o)
  {
    if OnCloud(a) {
      LBsBounded(s);
      FIPsBounded(s);
      OneResourceChanges(s, a, o);
    } else {
      OneObjectChanges(s, a, o);
    }
  }

  lemma OneObjectChanges(s: State, a: Action, o: Owner)
    requires Enabled(s, a) && !OnCloud(a) && ActsFor(a, o)
    ensures Aside(s, Apply(s, a), o)
  {
    if OnServices(a) {
      FrameServices(s, a);
      OneServiceChanges(s, a, o);
    } else {
      FrameReads(s, a);
    }
  }

  lemma OneResourceChanges(s: State, a: Action, o: Owner)
    requires Enabled(s, a) && OnCloud(a) && (ActsFor(a, o) || OnBalancerOf(s, a, o))
    requires (forall id :: id in s.lbs ==> id < s.nextId) && (forall f :: f in s.fips ==> f < s.nextId)
    ensures Aside(s, Apply(s, a), o)
  {
    FrameCloud(s, a);
    OneBalancerChanges(s, a, o);
    OneAddressChanges(s, a, o);
  }

  lemma OneServiceChanges(s: State, a: Action, o: Owner)
    requires OnServices(a) && MayOnServices(s, a) && ActsFor(a, o)
    ensures var s' := OnServicesNext(s, a);
            forall p :: p != o ==> (p in s'.services <==> p in s.services)
                                   && (p in s.services ==> s'.services[p] == s.services[p])
  {
  }

  lemma OneBalancerChanges(s: State, a: Action, o: Owner)
    requires OnCloud(a) && MayOnCloud(s, a) && (ActsFor(a, o) || OnBalancerOf(s, a, o))
    requires forall id :: id in s.lbs ==> id < s.nextId
    ensures SameButLBs(s.lbs, OnCloudNext(s, a).lbs, o)
  {
  }

  lemma OneAddressChanges(s: State, a: Action, o: Owner)
    requires OnCloud(a) && MayOnCloud(s, a) && (ActsFor(a, o) || OnBalancerOf(s, a, o))
    requires forall f :: f in s.fips ==> f < s.nextId
    ensures SameButFIPs(s.fips, OnCloudNext(s, a).fips, o)
  {
  }
}
