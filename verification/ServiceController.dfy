/**
 The per-tenant Service reconciler of loadbalancer-controller
 (internal/controller/service_controller.go, with EnsureLB, DeleteLB and the
 floating-IP functions of internal/openstack). Any request may fail, with or
 without having been carried out, and others act before every request, unless
 `reliable` or `quiet`. That each method only sends `Safe` requests is what
 makes the protocol of `Finalizers` the behaviour of this code.
 */
module ServiceController {
  import opened Finalizers
  import opened Listeners
  import opened Rely
  import opened Requests
  import opened SecurityGroups
  import opened Tags
  import opened Text
  import opened WorkerPorts

  datatype Outcome = Done | Requeue | Resync | Fault

  ghost predicate TwinFree(group: Option<Rules>) {
    group.Some? ==> forall o: Owner, k :: o.Wf() ==> !Twice(group.value, o, k)
  }

  lemma TwinFreeKept(before: Rules, after: Rules, o: Owner, wanted: set<RuleKey>)
    requires o.Wf() && TwinFree(Some(before)) && Between(before, after, o, wanted)
    requires forall k :: !Twice(after, o, k)
    ensures TwinFree(Some(after))
  {
    forall p: Owner, k | p.Wf() ensures !Twice(after, p, k) {
      if p != o {
        forall i | i in after && Owned(after[i], p) ensures i in before && before[i] == after[i] {
          OthersNotOwned(p, o, after[i].Key(), false);
        }
        assert !Twice(before, p, k);
      }
    }
  }

  /**
   The parts of the project's network the reconciler reads and writes: the rules of
   the cluster's own group, if it exists, and of operators' groups; the groups of
   each worker port; the workers' addresses and the IPv4 subnet of each network.
   */
  datatype Network = Network(managed: Option<Rules>, pinned: map<string, Rules>, ports: map<nat, seq<string>>,
                             workers: map<string, seq<string>>, subnets: map<string, string>)

  /**
   What stays as it is: which port carries an address on a network, the project's
   default group, whether there is an external network, and whether every new
   balancer and address comes with a port and an address.
   */
  datatype Layout = Layout(portOf: map<(string, string), nat>, defaultSG: Option<string>, external: bool,
                           furnished: bool)

  predicate Fits(layout: Layout, n: Network) {
    && (forall a :: a in layout.portOf ==> layout.portOf[a] in n.ports)
    && (forall w, i, j :: w in n.workers && 0 <= i < j < |n.workers[w]| ==> n.workers[w][i] != n.workers[w][j])
  }

  /** The addresses of the tenant's workers on the network. */
  function Workers(n: Network, network: string): seq<string> {
    if network in n.workers then n.workers[network] else []
  }

  /** The listeners, pools and members a Service asks for. */
  function GoalOf(n: Network, ports: seq<ServicePort>, network: string): Goal {
    Goal(ports, Workers(n, network), Lookup(n.subnets, network))
  }

  /** A pass that has read all it goes by. */
  predicate Reads(s: State, m: Reading) {
    m.owner.cluster in s.readings && s.readings[m.owner.cluster] == m
  }

  predicate MayProvide(s: State, o: Owner) {
    Providing(s, o) && Claimed(s, o)
  }

  predicate AllFor(log: seq<Action>, from: nat, o: Owner) {
    forall i :: from <= i < |log| ==> ActsFor(log[i], o)
  }

  class Worker {
    const tenant: string
    const quiet: bool
    const reliable: bool
    var s: State
    const layout: Layout
    var net: Network
    ghost const origin: State
    ghost var log: seq<Action>
    // the Service of the pass under way, and the log when it began
    ghost var over: Owner
    ghost var past: seq<Action>

    constructor (tenant: string, quiet: bool, reliable: bool, s: State, layout: Layout, net: Network)
      requires Inv(s) && TwinFree(net.managed) && Fits(layout, net) && layout.defaultSG != Some(ClusterSGName(tenant))
      ensures Valid() && this.tenant == tenant && this.quiet == quiet && this.reliable == reliable
      ensures this.s == s && this.layout == layout && this.net == net && log == []
    {
      this.tenant, this.quiet, this.reliable, this.s, this.layout, this.net := tenant, quiet, reliable, s, layout, net;
      origin, log, over, past := s, [], Owner(tenant, "", ""), [];
    }

    /** Everything that happened so far was a legal run; an undisturbed pass acts for one Service only. */
    ghost predicate Lawful()
      reads `s, `log, `over, `past
    {
      && Inv(origin) && Legal(origin, log) && s == After(origin, log)
      && Legal(origin, past) && past <= log && (quiet ==> AllFor(log, |past|, over))
    }

    ghost predicate Valid()
      reads this
    {
      && Lawful() && Inv(s) && over.cluster == tenant
      && TwinFree(net.managed) && Fits(layout, net) && layout.defaultSG != Some(ClusterSGName(tenant))
    }

    /** Others act: any number of allowed actions that are not this worker's. */
    method Others()
      requires Valid()
      modifies `s, `log, `net
      ensures Valid() && Calm(old(s), s, tenant)
      ensures quiet ==> s == old(s) && net == old(net)
    {
      hide Worker.Lawful, Inv, Calm;
      CalmRefl(s, tenant);
      if quiet {
        return;
      }
      var n: nat :| true;
      for i := 0 to n
        invariant Valid() && Calm(old(s), s, tenant)
      {
        assert Enabled(s, SetConfig("", None));
        var a: Action :| Enabled(s, a) && !OfWorker(a, tenant);
        StepIsCalm(s, a, tenant);
        CalmTrans(old(s), s, Apply(s, a), tenant);
        Happen(a);
      }
      var other: Network := *;
      var swept: bool := *;
      if Fits(layout, other) {
        net := other.(managed := if swept && tenant in s.condemned then None else net.managed);
      }
    }

    /** Somebody else acts. */
    method Happen(a: Action)
      requires Valid() && Enabled(s, a) && !OfWorker(a, tenant) && !quiet
      modifies `s, `log
      ensures Valid() && s == Apply(old(s), a)
    {
      hide Inv, Enabled, Apply, ActsFor, Legal, After, TwinFree, Fits;
      StepKeepsInv(s, a);
      LegalSnoc(origin, log, a);
      s, log := Apply(s, a), log + [a];
    }

    /** Octavia acts between passes. */
    method Advance(a: Action)
      requires Valid() && Enabled(s, a) && (a.Settle? || a.Vanish?)
      modifies `s, `log, `past
      ensures Valid() && s == Apply(old(s), a)
    {
      hide Inv, Enabled, Apply, ActsFor, Legal, After, TwinFree, Fits;
      StepKeepsInv(s, a);
      LegalSnoc(origin, log, a);
      s, log := Apply(s, a), log + [a];
      past := log;
    }

    /** A pass over another Service begins. */
    method Begin(o: Owner)
      requires Valid() && o.cluster == tenant
      modifies `over, `past
      ensures Valid() && over == o && past == log
    {
      over, past := o, log;
    }

    /** This worker acts, in a pass over one Service. */
    method Do(a: Action)
      requires Valid() && Enabled(s, a) && ActsFor(a, over)
      modifies `s, `log
      ensures Valid() && s == Apply(old(s), a)
    {
      hide Inv, Enabled, Apply, ActsFor, Legal, After, TwinFree, Fits;
      StepKeepsInv(s, a);
      LegalSnoc(origin, log, a);
      s, log := Apply(s, a), log + [a];
    }

    /** A read request: it may find the world changed, or fail. */
    method Ask() returns (ok: bool)
      requires Valid()
      modifies `s, `log, `net
      ensures Valid() && Calm(old(s), s, tenant)
      ensures quiet ==> s == old(s) && net == old(net)
      ensures reliable ==> ok
    {
      hide Worker.Lawful, Inv, Calm;
      Others();
      ok := Answered(reliable);
    }

    /** A write request that is allowed whenever the service accepts it. */
    method Try(a: Action) returns (ok: bool, ghost mid: State)
      requires Valid() && Safe(s, a, tenant) && ActsFor(a, over)
      modifies `s, `log, `net
      ensures Valid() && Inv(mid) && Calm(old(s), mid, tenant)
      ensures quiet ==> mid == old(s) && net == old(net)
      ensures s == mid || (Accepts(mid, a) && Enabled(mid, a) && s == Apply(mid, a))
      ensures ok ==> Accepts(mid, a) && Enabled(mid, a) && s == Apply(mid, a)
      ensures reliable && Accepts(mid, a) ==> ok
    {
      hide Worker.Lawful, Inv, Calm;
      ok := Ask();
      mid := s;
      var carriedOut: bool := *;
      if !Accepts(s, a) {
        return false, mid;
      }
      if ok || carriedOut {
        Do(a);
      }
    }

    // -------------------------------------------------------------- looking things up

    /** The balancer with the Service's name; names are unique, so whichever is listed first. */
    method FindLB(o: Owner) returns (ok: bool, found: Option<nat>)
      requires Valid() && o.Wf()
      modifies `s, `log, `net
      ensures Valid() && Calm(old(s), s, tenant)
      ensures quiet ==> s == old(s) && net == old(net)
      ensures reliable ==> ok
      ensures ok ==> if found.None? then NoLB(s, o)
                     else found.value in s.lbs && s.lbs[found.value].owner == o && Known(s, found.value, o)
    {
      hide Worker.Lawful, Calm;
      ok := Ask();
      found := None;
      LBsBounded(s);
      forall id | id in s.lbs ensures s.lbs[id].owner.Tag() == o.Tag() <==> s.lbs[id].owner == o {
        assert LBOk(s, id);
        if s.lbs[id].owner.Tag() == o.Tag() {
          TagInjective(s.lbs[id].owner, o);
        }
      }
      if exists id :: id in s.lbs && s.lbs[id].owner.Tag() == o.Tag() {
        var id :| id in s.lbs && s.lbs[id].owner.Tag() == o.Tag();
        found := Some(id);
      }
    }

    method FindFIP(port: nat) returns (ok: bool, found: Option<nat>)
      requires Valid()
      modifies `s, `log, `net
      ensures Valid() && Calm(old(s), s, tenant)
      ensures quiet ==> s == old(s) && net == old(net)
      ensures reliable ==> ok
      ensures ok ==> if found.None? then PortFree(s, port)
                     else found.value in s.fips && s.fips[found.value].port == port && FIPOk(s, found.value)
    {
      hide Worker.Lawful, Calm;
      ok := Ask();
      found := None;
      if exists f :: f in s.fips && s.fips[f].port == port {
        var f :| f in s.fips && s.fips[f].port == port;
        found := Some(f);
      }
    }

    // -------------------------------------------------------------- tearing down

    method DropFIP(o: Owner, id: nat, f: nat) returns (ok: bool)
      requires Valid() && o == over && Cleaning(s, o) && Known(s, id, o)
      requires f in s.fips && s.fips[f].port == id && FIPOk(s, f)
      modifies `s, `log, `net
      ensures Valid() && Cleaning(s, o) && Known(s, id, o) && (ok ==> PortFree(s, id))
      ensures quiet ==> net == old(net)
      ensures quiet ==> s == old(s) || s == old(s).(fips := WithoutPort(old(s).fips, id))
      ensures reliable && quiet ==> ok
    {
      hide Worker.Lawful, Inv, Calm;
      SafeDeleteFIP(s, f, o);
      ghost var before, mid := s, s;
      ok, mid := Try(DeleteFIP(o, f));
      PassKept(before, mid, o);
      KnownKept(before, mid, id, o);
      if s != mid {
        SameAddress(before, mid, f, o);
        FIPGone(mid, o, f, id);
      }
    }

    lemma SameAddress(a: State, b: State, f: nat, o: Owner)
      requires Calm(a, b, o.cluster) && f in a.fips && f in b.fips
      ensures b.fips[f] == a.fips[f]
    {
    }

    lemma FIPGone(s: State, o: Owner, f: nat, id: nat)
      requires Inv(s) && Enabled(s, DeleteFIP(o, f)) && s.fips[f].port == id
      ensures Apply(s, DeleteFIP(o, f)) == s.(fips := WithoutPort(s.fips, id))
      ensures PortFree(Apply(s, DeleteFIP(o, f)), id)
    {
      assert s.fips - {f} == WithoutPort(s.fips, id);
    }

    /** Deletes the address on the balancer's port, if there is one. */
    method DeleteFloatingIP(o: Owner, id: nat) returns (ok: bool)
      requires Valid() && o == over && Cleaning(s, o) && Known(s, id, o)
      modifies `s, `log, `net
      ensures Valid() && Cleaning(s, o) && Known(s, id, o) && (ok ==> PortFree(s, id))
      ensures quiet ==> net == old(net)
      ensures quiet ==> s == old(s) || s == old(s).(fips := WithoutPort(old(s).fips, id))
      ensures reliable && quiet ==> ok
    {
      hide Worker.Lawful, Inv, Calm;
      ghost var before := s;
      var found;
      ok, found := FindFIP(id);
      PassKept(before, s, o);
      KnownKept(before, s, id, o);
      if ok && found.Some? {
        ok := DropFIP(o, id, found.value);
      }
    }

    /** Frees the balancer's port; a balancer without one never had an address. */
    method FreePort(o: Owner, id: nat) returns (ok: bool)
      requires Valid() && o == over && Cleaning(s, o) && Known(s, id, o)
      requires id in s.lbs && s.lbs[id].owner == o
      modifies `s, `log, `net
      ensures Valid() && Cleaning(s, o) && Known(s, id, o) && (ok ==> PortFree(s, id))
      ensures quiet ==> net == old(net)
      ensures quiet ==> s == old(s) || s == old(s).(fips := WithoutPort(old(s).fips, id))
      ensures reliable && quiet ==> ok
    {
      hide Worker.Lawful, Inv, Calm;
      if s.lbs[id].hasPort {
        ok := DeleteFloatingIP(o, id);
      } else {
        NoPortNoFIP(s, id);
        ok := true;
      }
    }

    method SendDelete(o: Owner, id: nat) returns (ok: bool)
      requires Valid() && o == over && Cleaning(s, o) && Known(s, id, o) && PortFree(s, id)
      modifies `s, `log, `net
      ensures Valid() && Cleaning(s, o)
      ensures quiet ==> net == old(net)
      ensures quiet ==> s == old(s) || (id in old(s).lbs && s == SetStatus(old(s), id, PendingDelete))
      ensures quiet && ok ==> id in old(s).lbs && s == SetStatus(old(s), id, PendingDelete)
      ensures quiet && reliable && id in old(s).lbs && old(s).lbs[id].status in {Active, Status.Error} ==> ok
    {
      hide Worker.Lawful, Inv, Calm;
      SafeDeleteLB(s, id, o);
      ghost var before, mid := s, s;
      ok, mid := Try(DeleteLB(o, id));
      PassKept(before, mid, o);
    }

    /** What DeleteLB does: the address first, then the balancer; pending until Octavia is done. */
    method DeleteBalancer(o: Owner) returns (ok: bool, pending: bool, ghost freed: State)
      requires Valid() && o == over && o.Wf() && Cleaning(s, o)
      modifies `s, `log, `net
      ensures Valid() && Cleaning(s, o) && (ok && !pending ==> NoLB(s, o))
      ensures quiet ==> net == old(net)
      ensures quiet ==> Deletion(old(s), freed, s, o, ok, pending)
      ensures reliable && quiet && !Busy(old(s), o) ==> ok
    {
      hide Worker.Lawful, Inv, Calm;
      freed := s;
      var found;
      ok, found := FindLB(o);
      PassKept(old(s), s, o);
      if !ok || found.None? {
        return ok, false, s;
      }
      pending := true;
      OneBalancer(s, o, found.value);
      ghost var start := s;
      ok, freed := DeleteFound(o, found.value);
      assert quiet ==> DeletionOf(start, freed, s, o, found.value, ok);
    }

    method DeleteFound(o: Owner, id: nat) returns (ok: bool, ghost freed: State)
      requires Valid() && o == over && Cleaning(s, o) && Known(s, id, o)
      requires id in s.lbs && s.lbs[id].owner == o
      modifies `s, `log, `net
      ensures Valid() && Cleaning(s, o)
      ensures quiet ==> net == old(net)
      ensures quiet ==> DeletionOf(old(s), freed, s, o, id, ok)
      ensures reliable && quiet && old(s).lbs[id].status in {Active, Status.Error, PendingDelete} ==> ok
    {
      hide Worker.Lawful, Inv, Calm;
      var status := s.lbs[id].status;
      ok := FreePort(o, id);
      freed := s;
      if ok && status != PendingDelete {
        ok := SendDelete(o, id);
      }
    }

    // -------------------------------------------------------------- cleanup

    /** The Service's rules go from the cluster's own group, which may already be gone. */
    method WipeRules(o: Owner, pin: string) returns (ok: bool)
      requires Valid() && o == over && o.Wf()
      modifies `s, `log, `net
      ensures Valid() && SameReading(old(s), s, tenant)
      ensures quiet ==> s == old(s) && OnlyFewer(old(net), net, o, pin)
      ensures quiet && ok ==> RulesGone(old(net), net, pin, o)
      ensures quiet && !ok ==> !reliable || (pin != "" && pin !in old(net).pinned)
    {
      hide Worker.Lawful, Inv, Calm;
      SameRules(net, o, pin);
      ok := Ask();
      PassKept(old(s), s, o);
      if !ok {
        return;
      }
      if pin != "" {
        ok := WipePinned(o, pin);
      } else if net.managed.Some? {
        ok := WipeManaged(o);
      }
    }

    method WipeManaged(o: Owner) returns (ok: bool)
      requires Valid() && o == over && o.Wf()
      modifies `s, `log, `net
      ensures Valid() && SameReading(old(s), s, tenant)
      ensures quiet ==> s == old(s) && OnlyFewer(old(net), net, o, "")
      ensures quiet && ok ==> NoRules(net.managed, o)
      ensures quiet && !ok && old(net).managed.Some? ==> !reliable
    {
      hide Worker.Lawful, Inv, Calm;
      Others();
      PassKept(old(s), s, o);
      if net.managed.None? {
        return false;
      }
      var group := new SecurityGroup(reliable, net.managed.value);
      ok := group.DeleteNodePortRules(o);
      StillTwinFree(net.managed.value, group.rules, o);
      BetweenIsAside(net.managed.value, group.rules, o, {});
      net := net.(managed := Some(group.rules));
    }

    method WipePinned(o: Owner, pin: string) returns (ok: bool)
      requires Valid() && o == over && pin != ""
      modifies `s, `log, `net
      ensures Valid() && SameReading(old(s), s, tenant)
      ensures quiet ==> s == old(s) && OnlyFewer(old(net), net, o, pin)
      ensures quiet && ok ==>
                pin in old(net).pinned && pin in net.pinned && Wiped(old(net).pinned[pin], net.pinned[pin], o)
      ensures quiet && reliable && pin in old(net).pinned ==> ok
    {
      hide Worker.Lawful, Inv, Calm;
      Others();
      PassKept(old(s), s, o);
      if pin !in net.pinned {
        return false;
      }
      var group := new SecurityGroup(reliable, net.pinned[pin]);
      ok := group.DeleteNodePortRules(o);
      BetweenIsAside(net.pinned[pin], group.rules, o, {});
      net := net.(pinned := net.pinned[pin := group.rules]);
    }

    lemma StillTwinFree(before: Rules, after: Rules, o: Owner)
      requires o.Wf() && TwinFree(Some(before)) && forall i :: i in after ==> i in before && after[i] == before[i]
      ensures TwinFree(Some(after)) && forall k :: !Twice(before, o, k)
    {
      forall p: Owner, k | p.Wf() ensures !Twice(after, p, k) {
        assert !Twice(before, p, k);
      }
    }

    /** Empties the published addresses, unless the snapshot or the fresh copy shows none. */
    method ClearIngress(o: Owner, svc: Service) returns (ok: bool)
      requires Valid() && o == over && Cleaning(s, o) && NoLB(s, o)
      modifies `s, `log, `net
      ensures Valid() && Cleaning(s, o) && NoLB(s, o)
      ensures quiet ==> net == old(net)
      ensures quiet ==> s == old(s) || (o in old(s).services && s == WithIngress(old(s), o, []))
      ensures quiet && ok && o in s.services && old(s).services[o] == svc ==> s.services[o].ingress == []
      ensures quiet && reliable && o in old(s).services ==> ok
    {
      hide Worker.Lawful, Inv, Calm;
      if svc.ingress == [] {
        return true;
      }
      ok := Ask();
      PassKept(old(s), s, o);
      NoLBKept(old(s), s, o);
      if !ok || o !in s.services || s.services[o].ingress == [] {
        return;
      }
      SafeEdits(s, o, {}, []);
      ghost var before, mid := s, s;
      ok, mid := Try(SetIngress(o, []));
      PassKept(before, mid, o);
      NoLBKept(before, mid, o);
    }

    /** Takes the finalizer off, with the list as it was when the pass began. */
    method DropFinalizerOf(o: Owner, svc: Service, clean: bool) returns (r: Outcome)
      requires Valid() && o == over && (if clean then Cleaning(s, o) && NoLB(s, o) else Dismissed(s, o))
      requires quiet ==> o in s.services && s.services[o].finalizers == svc.finalizers
      modifies `s, `log, `net
      ensures Valid() && r in {Done, Fault}
      ensures quiet ==> net == old(net)
      ensures quiet && FINALIZER !in svc.finalizers ==> s == old(s) && r == Done
      ensures quiet ==> s == old(s) || Dropped(old(s), s, o, clean)
      ensures quiet && r == Done && FINALIZER in svc.finalizers ==> Dropped(old(s), s, o, clean)
      ensures quiet && reliable ==> r == Done
    {
      hide Worker.Lawful, Inv, Calm;
      if FINALIZER !in svc.finalizers {
        return Done;
      }
      SafeDropFinalizer(s, o, svc.finalizers, clean);
      ghost var mid;
      var ok;
      ok, mid := Try(DropFinalizer(o, svc.finalizers, clean));
      r := if ok then Done else Fault;
      if quiet {
        IsDropped(mid, o, clean);
      }
    }

    lemma IsDropped(s: State, o: Owner, clean: bool)
      requires o in s.services
      ensures var a := DropFinalizer(o, s.services[o].finalizers, clean);
              Enabled(s, a) ==> Dropped(s, Apply(s, a), o, clean)
    {
    }

    /** With the balancer gone: unpublish, then let the Service go. */
    method Close(o: Owner, svc: Service) returns (r: Outcome, ghost unpublished: State)
      requires Valid() && o == over && Cleaning(s, o) && NoLB(s, o) && FINALIZER in svc.finalizers
      requires quiet ==> o in s.services && s.services[o] == svc
      modifies `s, `log, `net
      ensures Valid() && r in {Done, Fault}
      ensures quiet ==> net == old(net)
      ensures quiet ==> Closing(old(s), unpublished, s, o, r == Done)
      ensures quiet && reliable ==> r == Done
    {
      hide Worker.Lawful, Inv, Calm;
      var ok := ClearIngress(o, svc);
      unpublished := s;
      if !ok {
        return Fault, s;
      }
      r := DropFinalizerOf(o, svc, true);
    }

    /**
     The cleanup branch: rules, address, balancer, published address, finalizer,
     each only after the one before is known to be done.
     */
    method Cleanup(o: Owner, svc: Service, pin: string) returns (r: Outcome)
      requires Valid() && o == over && o.Wf() && Cleaning(s, o)
      requires quiet ==> o in s.services && s.services[o] == svc
      modifies `s, `log, `net
      ensures Valid()
      ensures quiet && FINALIZER !in svc.finalizers ==> r == Done && s == old(s) && net == old(net)
      ensures quiet ==> GettingDone(old(s), s, old(net), net, o, pin, r)
      ensures quiet && reliable && (pin == "" || pin in old(net).pinned) && !Busy(old(s), o) ==> r != Fault
    {
      hide Worker.Lawful, Inv, Calm, OnlyFewer, RulesGone, AllStanding, CloudLeft;
      SameRules(net, o, pin);
      if FINALIZER !in svc.finalizers {
        return Done;
      }
      var ok := Ask();
      PassKept(old(s), s, o);
      if !ok {
        return Fault;
      }
      ok := WipeRules(o, pin);
      if !ok {
        return Fault;
      }
      ghost var start := s;
      var pending;
      ghost var freed;
      ok, pending, freed := DeleteBalancer(o);
      if quiet {
        DeletionProgress(start, freed, s, o, ok, pending);
      }
      if !ok {
        return Fault;
      }
      if pending {
        return Requeue;
      }
      ghost var unpublished;
      ghost var empty := s;
      r, unpublished := Close(o, svc);
      if quiet {
        ClosingProgress(empty, unpublished, s, o, r == Done);
        SameStanding(empty, s, o);
      }
    }

    // -------------------------------------------------------------- providing

    method CreateBalancer(o: Owner) returns (r: Outcome)
      requires Valid() && o == over && o.Wf() && MayProvide(s, o) && NoLB(s, o)
      modifies `s, `log, `net
      ensures Valid() && r in {Requeue, Fault}
      ensures quiet ==> net == old(net)
      ensures quiet ==> s == old(s) || IsCreated(old(s), s, o, layout.furnished)
      ensures quiet && (r == Requeue || reliable) ==> r == Requeue && IsCreated(old(s), s, o, layout.furnished)
    {
      hide Worker.Lawful, Inv, Calm;
      var hasPort: bool := *;
      hasPort := hasPort || layout.furnished;
      var address: string :| layout.furnished ==> address != "";
      SafeCreateLB(s, o, hasPort, address);
      ghost var mid;
      var ok;
      ok, mid := Try(CreateLB(o, hasPort, address));
      r := if ok then Requeue else Fault;
      FreshPort(mid);
      CreatedIs(mid, o, hasPort, address, layout.furnished);
    }

    lemma CreatedIs(s: State, o: Owner, hasPort: bool, address: string, furnished: bool)
      requires s.nextId !in s.lbs && PortFree(s, s.nextId) && (furnished ==> hasPort && address != "")
      ensures Enabled(s, CreateLB(o, hasPort, address)) ==>
                IsCreated(s, Apply(s, CreateLB(o, hasPort, address)), o, furnished)
    {
    }

    lemma FreshPort(s: State)
      requires Inv(s)
      ensures s.nextId !in s.lbs && PortFree(s, s.nextId)
    {
    }

    /** What EnsureLB does: find the balancer or ask for one; anything unsettled is for a later pass. */
    method EnsureBalancer(o: Owner) returns (r: Outcome, id: nat, lb: Option<LB>)
      requires Valid() && o == over && o.Wf() && MayProvide(s, o)
      modifies `s, `log, `net
      ensures Valid() && r in {Done, Requeue, Fault}
      ensures r == Done ==> Seen(s, id, o, lb) && lb.value.status == Active && MayProvide(s, o)
      ensures quiet ==> net == old(net)
      ensures quiet ==> s == old(s) || (NoLB(old(s), o) && r != Done && IsCreated(old(s), s, o, layout.furnished))
      ensures quiet && r == Requeue ==>
                if NoLB(old(s), o) then IsCreated(old(s), s, o, layout.furnished)
                else s == old(s) && (Busy(s, o) || Leaving(s, o))
      ensures quiet && reliable && !Errored(old(s), o) ==> r != Fault
    {
      hide Worker.Lawful, Inv, Calm;
      id, lb := 0, None;
      var ok, found := FindLB(o);
      PassKept(old(s), s, o);
      if !ok {
        return Fault, 0, None;
      }
      if found.None? {
        r := CreateBalancer(o);
        return;
      }
      OneBalancer(s, o, found.value);
      id, lb := found.value, Some(s.lbs[found.value]);
      match lb.value.status {
        case Active => r := Done;
        case Error => r := Fault;
        case PendingCreate => r := Requeue;
        case PendingUpdate => r := Requeue;
        case PendingDelete => r := Requeue;
      }
    }

    /** One reconcile step of the balancer's listeners, pools and members, as `Listeners` proves it. */
    method SyncBalancer(o: Owner, id: nat, g: Goal) returns (r: SyncResult)
      requires Valid() && o == over && Providing(s, o) && Known(s, id, o) && g.Wf()
      modifies `s, `log, `net
      ensures Valid() && (r == InSync ==> Calm(old(s), s, tenant))
      ensures quiet ==> net == old(net)
      ensures quiet ==> s == old(s) || (id in old(s).lbs && IsChanged(old(s), s, id, g))
      ensures quiet && id in old(s).lbs && old(s).lbs[id].status == Active ==>
                && (r == InSync ==> s == old(s) && Settled(s.lbs[id].view, g))
                && (r == Pending ==> IsChanged(old(s), s, id, g))
                && (reliable && PortError(g.ports) == None ==> r in {InSync, Pending})
    {
      hide Worker.Lawful, Inv, Calm;
      Others();
      PassKept(old(s), s, o);
      KnownKept(old(s), s, id, o);
      if id !in s.lbs || s.lbs[id].status != Active {
        r := *;
        return;
      }
      KnownIs(s, id, o);
      r := SyncNow(o, id, g);
    }

    method SyncNow(o: Owner, id: nat, g: Goal) returns (r: SyncResult)
      requires Valid() && o == over && Providing(s, o) && g.Wf()
      requires id in s.lbs && s.lbs[id].owner == o && s.lbs[id].status == Active && ValidView(s.lbs[id].view)
      modifies `s, `log
      ensures Valid()
      ensures s == old(s) || IsChanged(old(s), s, id, g)
      ensures r == InSync ==> s == old(s) && Settled(old(s).lbs[id].view, g)
      ensures r == Pending ==> IsChanged(old(s), s, id, g)
      ensures reliable && PortError(g.ports) == None ==> r in {InSync, Pending}
    {
      hide Worker.Lawful, Inv, Calm;
      var changed, view;
      r, changed, view := StepView(reliable, s.lbs[id].view, g);
      if changed {
        Change(o, id, view, g);
      }
    }

    method Change(o: Owner, id: nat, view: View, g: Goal)
      requires Valid() && o == over && Providing(s, o)
      requires id in s.lbs && s.lbs[id].owner == o && s.lbs[id].status == Active
      requires ValidView(view) && Work(view, g) < Work(s.lbs[id].view, g)
      modifies `s, `log
      ensures Valid() && IsChanged(old(s), s, id, g)
    {
      hide Worker.Lawful, Inv, Calm;
      ChangedIs(s, o, id, view, g);
      Do(ChangeLB(o, id, view));
    }

    lemma ChangedIs(s: State, o: Owner, id: nat, view: View, g: Goal)
      requires Providing(s, o) && id in s.lbs && s.lbs[id].owner == o && s.lbs[id].status == Active && ValidView(view)
      requires Work(view, g) < Work(s.lbs[id].view, g)
      ensures Enabled(s, ChangeLB(o, id, view)) && IsChanged(s, Apply(s, ChangeLB(o, id, view)), id, g)
    {
    }

    /** Finds the address on the balancer's port or allocates one. */
    method EnsureFloatingIP(o: Owner, id: nat, hasPort: bool) returns (ok: bool, address: string)
      requires Valid() && o == over && MayProvide(s, o) && (hasPort ==> Grip(s, id, o))
      modifies `s, `log, `net
      ensures Valid() && MayProvide(s, o)
      ensures !hasPort ==> !ok && s == old(s)
      ensures quiet ==> net == old(net)
      ensures quiet ==> s == old(s) || IsBound(old(s), s, o, id)
      ensures ok && quiet && id in old(s).lbs ==> Carries(s, id, o, address)
      ensures ok && quiet && layout.furnished && Addressed(old(s), id) ==> address != ""
      ensures reliable && quiet && hasPort ==> ok
    {
      hide Worker.Lawful, Inv, Calm;
      address := "";
      if !hasPort {
        return false, "";
      }
      ghost var before := s;
      var found;
      ok, found := FindFIP(id);
      PassKept(before, s, o);
      GripKept(before, s, id, o);
      if !ok {
        return;
      }
      if found.Some? {
        return true, s.fips[found.value].address;
      }
      ok, address := Allocate(o, id);
    }

    method Allocate(o: Owner, id: nat) returns (ok: bool, address: string)
      requires Valid() && o == over && MayProvide(s, o) && Grip(s, id, o)
      modifies `s, `log, `net
      ensures Valid() && MayProvide(s, o) && (layout.furnished ==> address != "")
      ensures quiet ==> net == old(net)
      ensures quiet ==> s == old(s) || IsBound(old(s), s, o, id)
      ensures quiet && ok ==> Carries(s, id, o, address)
      ensures reliable && quiet && PortFree(old(s), id) ==> ok
    {
      hide Worker.Lawful, Inv, Calm;
      address :| layout.furnished ==> address != "";
      SafeCreateFIP(s, o, id, address);
      ghost var before, mid := s, s;
      ok, mid := Try(CreateFIP(o, id, address));
      PassKept(before, mid, o);
      BoundIs(mid, o, id, address);
    }

    lemma BoundIs(s: State, o: Owner, id: nat, address: string)
      requires Inv(s)
      ensures Enabled(s, CreateFIP(o, id, address)) ==>
                var s' := Apply(s, CreateFIP(o, id, address)); IsBound(s, s', o, id) && Carries(s', id, o, address)
    {
      FIPsBounded(s);
      if Enabled(s, CreateFIP(o, id, address)) {
        assert s.nextId in Apply(s, CreateFIP(o, id, address)).fips;
      }
    }

    /** The group the rules go to: the operator's, else the cluster's own, created when missing. */
    method EnsureGroup(pin: string) returns (ok: bool)
      requires Valid()
      modifies `s, `log, `net
      ensures Valid() && Calm(old(s), s, tenant)
      ensures quiet ==> s == old(s)
      ensures ok && pin == "" ==> net.managed.Some?
      ensures quiet ==> net == old(net).(managed := net.managed)
      ensures quiet ==> net == old(net) || (pin == "" && old(net).managed.None? && net.managed == Some(map[]))
      ensures reliable ==> ok
    {
      hide Worker.Lawful, Inv, Calm;
      if pin != "" {
        CalmRefl(s, tenant);
        return true;
      }
      ok := Ask();
      if ok && net.managed.None? {
        net := net.(managed := Some(map[]));
      }
    }

    method EnsureRules(o: Owner, ports: seq<ServicePort>, cidrs: seq<string>, pin: string) returns (ok: bool)
      requires Valid() && o == over && o.Wf()
      modifies `s, `log, `net
      ensures Valid() && Calm(old(s), s, tenant)
      ensures quiet ==> s == old(s) && OnlyRules(old(net), net, o, pin)
      ensures quiet && ok ==> RulesSet(old(net), net, pin, o, Desired(ports, cidrs))
      ensures quiet && reliable && cidrs != []
                && (if pin == "" then old(net).managed.Some? else pin in old(net).pinned) ==>
                ok
    {
      hide Worker.Lawful, Inv, Calm, Desired, HasKey, Twice;
      if pin == "" {
        ok := EnsureManaged(o, ports, cidrs);
      } else {
        ok := EnsurePinned(o, ports, cidrs, pin);
      }
    }

    method EnsureManaged(o: Owner, ports: seq<ServicePort>, cidrs: seq<string>) returns (ok: bool)
      requires Valid() && o == over && o.Wf()
      modifies `s, `log, `net
      ensures Valid() && Calm(old(s), s, tenant)
      ensures quiet ==> s == old(s) && OnlyRules(old(net), net, o, "")
      ensures quiet && ok ==> RulesSet(old(net), net, "", o, Desired(ports, cidrs))
      ensures quiet && reliable && cidrs != [] && old(net).managed.Some? ==> ok
    {
      hide Worker.Lawful, Inv, Calm, Desired, HasKey;
      Others();
      SameRules(net, o, "");
      if net.managed.None? {
        return false;
      }
      var group := new SecurityGroup(reliable, net.managed.value);
      ok := group.EnsureNodePortRules(o, ports, cidrs);
      TwinFreeKept(net.managed.value, group.rules, o, Desired(ports, cidrs));
      BetweenIsAside(net.managed.value, group.rules, o, Desired(ports, cidrs));
      net := net.(managed := Some(group.rules));
    }

    method EnsurePinned(o: Owner, ports: seq<ServicePort>, cidrs: seq<string>, pin: string) returns (ok: bool)
      requires Valid() && pin != ""
      modifies `s, `log, `net
      ensures Valid() && Calm(old(s), s, tenant)
      ensures quiet ==> s == old(s) && OnlyRules(old(net), net, o, pin)
      ensures quiet && ok ==> RulesSet(old(net), net, pin, o, Desired(ports, cidrs))
      ensures quiet && reliable && cidrs != [] && pin in old(net).pinned ==> ok
    {
      hide Worker.Lawful, Inv, Calm, Desired, HasKey, Twice;
      Others();
      SameRules(net, o, pin);
      if pin !in net.pinned {
        return false;
      }
      var group := new SecurityGroup(reliable, net.pinned[pin]);
      ok := group.EnsureNodePortRules(o, ports, cidrs);
      BetweenIsAside(net.pinned[pin], group.rules, o, Desired(ports, cidrs));
      net := net.(pinned := net.pinned[pin := group.rules]);
    }

    /** Publishes the address, unless the snapshot already lists it. */
    method PatchStatus(o: Owner, svc: Service, address: string) returns (ok: bool)
      requires Valid() && o == over && Providing(s, o)
      modifies `s, `log, `net
      ensures Valid()
      ensures quiet ==> net == old(net)
      ensures quiet ==> s == old(s) || (o in old(s).services && s == WithIngress(old(s), o, [address]))
      ensures quiet && ok && o in old(s).services && old(s).services[o] == svc ==>
                address != "" && o in s.services && address in s.services[o].ingress
      ensures reliable && quiet && address != "" && o in old(s).services ==> ok
    {
      hide Worker.Lawful, Inv, Calm;
      if address == "" {
        return false;
      }
      if address in svc.ingress {
        return true;
      }
      ok := Ask();
      PassKept(old(s), s, o);
      if !ok || o !in s.services {
        return false;
      }
      SafeEdits(s, o, {}, [address]);
      ghost var mid;
      ok, mid := Try(SetIngress(o, [address]));
    }

    /** The address to publish: the floating IP where there is an external network, else the balancer's own. */
    method ChooseAddress(o: Owner, id: nat, lb: LB, floating: string) returns (ok: bool, address: string)
      requires Valid() && o == over && MayProvide(s, o) && (lb.hasPort ==> Grip(s, id, o))
      modifies `s, `log, `net
      ensures Valid() && MayProvide(s, o)
      ensures quiet ==> net == old(net)
      ensures quiet ==> s == old(s) || IsBound(old(s), s, o, id)
      ensures ok && quiet && id in old(s).lbs ==>
                if External(layout, floating) then Carries(s, id, o, address) else address == lb.address
      ensures ok && quiet && External(layout, floating) && layout.furnished && Addressed(old(s), id) ==> address != ""
      ensures reliable && quiet && (External(layout, floating) ==> lb.hasPort) ==> ok
    {
      hide Worker.Lawful, Inv, Calm;
      address := lb.address;
      ghost var before := s;
      ok := true;
      if floating == "" {
        ok := Ask();
      }
      CalmRefl(before, tenant);
      PassKept(before, s, o);
      if lb.hasPort {
        GripKept(before, s, id, o);
      }
      if ok && External(layout, floating) {
        ok, address := EnsureFloatingIP(o, id, lb.hasPort);
      }
    }

    /** Address, worker ports, rules and published status, in this order. */
    method Expose(o: Owner, svc: Service, cfg: Resolved, ips: seq<string>, id: nat, lb: LB)
      returns (r: Outcome, ghost address: string)
      requires Valid() && o == over && o.Wf() && MayProvide(s, o)
      requires (lb.hasPort ==> Grip(s, id, o)) && cfg.network != "" && cfg.cidrs != []
      requires quiet ==> id in s.lbs && s.lbs[id] == lb && o in s.services && s.services[o] == svc
      requires quiet ==> ips == Workers(net, cfg.network)
      modifies `s, `log, `net
      ensures Valid() && r in {Resync, Fault}
      ensures quiet ==> Exposing(old(s), s, o, id) && NetAside(old(net), net, layout, o, cfg)
      ensures quiet && r == Resync ==> Exposed(s, old(net), net, layout, o, svc.ports, cfg, ips, id, lb, address)
      ensures quiet && reliable && HasGroup(old(net), cfg) && Reachable(old(s), layout, cfg, id, lb) ==> r != Fault
    {
      hide Worker.Lawful, Inv, Calm, NetAside, RulesSet, Isolated, Exposing, IsBound, MayProvide;
      ghost var before := s;
      SameNet(net, layout, o, cfg);
      var ok, chosen := ChooseAddress(o, id, lb, cfg.floating);
      address := chosen;
      ghost var bound := s;
      if quiet {
        ExposingIs(before, bound, bound, o, id, chosen);
      }
      if !ok {
        return Fault, chosen;
      }
      r := Open(o, svc, cfg, ips, chosen);
      if quiet {
        ExposingIs(before, bound, s, o, id, chosen);
      }
    }

    lemma ExposingIs(a: State, b: State, c: State, o: Owner, id: nat, address: string)
      requires (b == a || IsBound(a, b, o, id)) && o in a.services
      requires c == b || (o in b.services && c == WithIngress(b, o, [address]))
      ensures Exposing(a, c, o, id) && o in b.services && b.services[o] == a.services[o] && c.fips == b.fips
    {
    }

    /** With the address at hand: worker ports, rules and published status. */
    method Open(o: Owner, svc: Service, cfg: Resolved, ips: seq<string>, address: string) returns (r: Outcome)
      requires Valid() && o == over && o.Wf() && MayProvide(s, o) && cfg.network != "" && cfg.cidrs != []
      requires quiet ==> o in s.services && s.services[o] == svc && ips == Workers(net, cfg.network)
      modifies `s, `log, `net
      ensures Valid() && r in {Resync, Fault}
      ensures quiet ==> s == old(s) || s == WithIngress(old(s), o, [address])
      ensures quiet ==> NetAside(old(net), net, layout, o, cfg)
      ensures quiet && r == Resync ==>
                && address != "" && address in s.services[o].ingress
                && RulesSet(old(net), net, cfg.pinned, o, Desired(svc.ports, cfg.cidrs))
                && (cfg.pinned == "" ==> Isolated(net.ports, layout, ClusterSGName(tenant), ips, cfg.network))
      ensures quiet && reliable && address != "" && HasGroup(old(net), cfg) ==>
                r != Fault
    {
      hide Worker.Lawful, Inv, Calm;
      var ok := EnsureGroup(cfg.pinned);
      PassKept(old(s), s, o);
      if !ok {
        return Fault;
      }
      if cfg.pinned == "" {
        ghost var before := s;
        ok := PreparePorts(ips, cfg.network);
        PassKept(before, s, o);
        if !ok {
          return Fault;
        }
      }
      ghost var prepared := s;
      ok := EnsureRules(o, svc.ports, cfg.cidrs, cfg.pinned);
      PassKept(prepared, s, o);
      if !ok {
        return Fault;
      }
      ok := PatchStatus(o, svc, address);
      r := if ok then Resync else Fault;
    }

    /** The cluster's group goes onto every worker port, then the project's default one comes off. */
    method PreparePorts(ips: seq<string>, network: string) returns (ok: bool)
      requires Valid() && network != ""
      modifies `s, `log, `net
      ensures Valid() && Calm(old(s), s, tenant)
      ensures quiet ==> s == old(s) && net == old(net).(ports := net.ports)
      ensures quiet ==> PortsAside(old(net).ports, net.ports, layout, ClusterSGName(tenant), ips, network)
      ensures quiet && ok ==> Isolated(net.ports, layout, ClusterSGName(tenant), ips, network)
      ensures reliable ==> ok
    {
      hide Worker.Lawful, Inv, Calm;
      Others();
      var neutron := new Neutron(reliable, layout.portOf, layout.defaultSG, net.ports);
      ghost var found := neutron.Found(ips, network);
      var result, _ := neutron.IsolateWorkers(ClusterSGName(tenant), ips, network);
      assert forall ip :: ip in ips && (network, ip) in layout.portOf ==> layout.portOf[(network, ip)] in found;
      net := net.(ports := neutron.groups);
      ok := result == Detached;
    }

    /** Listeners and members of an active balancer, then everything that makes it reachable. */
    method Serve(o: Owner, svc: Service, cfg: Resolved, subnet: string, id: nat, lb: LB)
      returns (r: Outcome, ghost address: string)
      requires Valid() && o == over && o.Wf() && MayProvide(s, o) && DistinctPorts(svc.ports)
      requires Known(s, id, o) && (lb.hasPort ==> Grip(s, id, o)) && cfg.network != "" && cfg.cidrs != []
      requires quiet ==>
                 && id in s.lbs && s.lbs[id] == lb && lb.owner == o && lb.status == Active
                 && o in s.services && s.services[o] == svc && subnet == Lookup(net.subnets, cfg.network)
      modifies `s, `log, `net
      ensures Valid() && r in {Requeue, Resync, Fault}
      ensures quiet ==>
                var g := GoalOf(old(net), svc.ports, cfg.network);
                && (s == old(s) || Serves(old(s), s, o, id, g)) && NetAside(old(net), net, layout, o, cfg)
                && (r == Requeue ==> IsChanged(old(s), s, id, g) && net == old(net))
                && (r == Resync ==>
                      s.lbs == old(s).lbs && Provided(s, old(net), net, layout, o, svc.ports, cfg, id, address))
                && (reliable && PortError(svc.ports) == None && HasGroup(old(net), cfg) ==>
                      Reachable(old(s), layout, cfg, id, lb) ==> r != Fault)
    {
      hide Worker.Lawful, Inv, Calm;
      address := "";
      ghost var before := s;
      SameNet(net, layout, o, cfg);
      var ips;
      r, ips := SyncListeners(o, svc, cfg, subnet, id);
      if r != Done {
        return;
      }
      PassKept(before, s, o);
      if lb.hasPort {
        GripKept(before, s, id, o);
      }
      r, address := Expose(o, svc, cfg, ips, id, lb);
    }

    /** The create path: balancer, then its listeners, then everything that makes it reachable. */
    method Provide(o: Owner, svc: Service, cfg: Resolved) returns (r: Outcome)
      requires Valid() && o == over && o.Wf() && MayProvide(s, o) && DistinctPorts(svc.ports)
      requires cfg.network != "" && cfg.cidrs != []
      requires quiet ==> o in s.services && s.services[o] == svc
      modifies `s, `log, `net
      ensures Valid() && r in {Requeue, Resync, Fault}
      ensures quiet ==> GettingThere(old(s), s, old(net), net, layout, o, svc.ports, cfg, r)
      ensures quiet && reliable && Servable(old(s), old(net), layout, o, svc.ports, cfg) ==> r != Fault
    {
      hide Worker.Lawful, Inv, Calm;
      var ok := Ask();
      PassKept(old(s), s, o);
      if ok {
        ghost var before := s;
        ok := Ask();
        PassKept(before, s, o);
      }
      if !ok || cfg.network !in net.subnets {
        return Fault;
      }
      var subnet := net.subnets[cfg.network];
      var id, lb;
      r, id, lb := EnsureBalancer(o);
      if r == Done {
        ghost var address;
        r, address := Serve(o, svc, cfg, subnet, id, lb.value);
      }
    }

    /** One step towards the Service's ports and the workers listed on its network. */
    method SyncListeners(o: Owner, svc: Service, cfg: Resolved, subnet: string, id: nat)
      returns (r: Outcome, ips: seq<string>)
      requires Valid() && o == over && Providing(s, o) && DistinctPorts(svc.ports) && Known(s, id, o)
      requires quiet ==> id in s.lbs && s.lbs[id].status == Active && subnet == Lookup(net.subnets, cfg.network)
      modifies `s, `log, `net
      ensures Valid() && r in {Done, Requeue, Fault} && (r == Done ==> Calm(old(s), s, tenant))
      ensures quiet ==> net == old(net) && ips == Workers(net, cfg.network)
      ensures quiet ==>
                var g := GoalOf(net, svc.ports, cfg.network);
                && (s == old(s) || IsChanged(old(s), s, id, g))
                && (r == Done ==> s == old(s) && Settled(s.lbs[id].view, g))
                && (r == Requeue ==> IsChanged(old(s), s, id, g))
                && (reliable && PortError(svc.ports) == None ==> r != Fault)
    {
      hide Worker.Lawful, Inv, Calm;
      ghost var before := s;
      var ok := Ask();
      ips := Workers(net, cfg.network);
      var g := Goal(svc.ports, ips, subnet);
      if !ok {
        return Fault, ips;
      }
      PassKept(before, s, o);
      KnownKept(before, s, id, o);
      ghost var asked := s;
      var synced := SyncBalancer(o, id, g);
      if synced == InSync {
        CalmTrans(before, asked, s, tenant);
      }
      r := match synced { case InSync => Done case Pending => Requeue case Failed(_) => Fault };
    }

    // -------------------------------------------------------------- the reconciler

    method AddFinalizerTo(o: Owner, svc: Service) returns (r: Outcome)
      requires Valid() && o == over && Providing(s, o)
      requires quiet ==> o in s.services && s.services[o].finalizers == svc.finalizers
      modifies `s, `log, `net
      ensures Valid() && r in {Done, Fault}
      ensures quiet ==> net == old(net) && (s == old(s) || IsClaimed(old(s), s, o))
      ensures quiet && r == Done ==> IsClaimed(old(s), s, o)
      ensures quiet && reliable && o in old(s).services && !old(s).services[o].deleting ==> r == Done
    {
      hide Worker.Lawful, Inv, Calm;
      SafeEdits(s, o, svc.finalizers, []);
      ghost var mid;
      var ok;
      ok, mid := Try(AddFinalizer(o, svc.finalizers));
      r := if ok then Done else Fault;
    }

    /**
     The tenant is going away: leave the cloud to the cluster sweep, but clean up after ourselves
     in the operator's group.
     */
    method StepAside(o: Owner, svc: Service, cfg: Resolved) returns (r: Outcome)
      requires Valid() && o == over && o.Wf() && Dismissed(s, o)
      requires quiet ==> o in s.services && s.services[o].finalizers == svc.finalizers
      modifies `s, `log, `net
      ensures Valid() && r in {Done, Fault}
      ensures quiet && FINALIZER !in svc.finalizers ==> s == old(s) && r == Done && net == old(net)
      ensures quiet ==> if cfg.pinned == "" then net == old(net) else OnlyFewer(old(net), net, o, cfg.pinned)
      ensures quiet ==> s == old(s) || Dropped(old(s), s, o, false)
      ensures quiet && r == Done && FINALIZER in svc.finalizers ==> Dropped(old(s), s, o, false)
      ensures quiet && reliable ==> r == Done
      ensures quiet && reliable && FINALIZER in svc.finalizers && cfg.pinned != "" && cfg.pinned in old(net).pinned ==>
                RulesGone(old(net), net, cfg.pinned, o)
    {
      hide Worker.Lawful, Inv, Calm;
      SameRules(net, o, cfg.pinned);
      if cfg.pinned != "" && FINALIZER in svc.finalizers {
        var ok := Ask();
        PassKept(old(s), s, o);
        if ok {
          var _ := WipeRules(o, cfg.pinned);
        }
      }
      r := DropFinalizerOf(o, svc, false);
    }

    /** The release is live: clean up, claim, or provide. */
    method Act(o: Owner, svc: Service, cfg: Resolved) returns (r: Outcome)
      requires Valid() && o == over && o.Wf() && DistinctPorts(svc.ports)
      requires Reads(s, Reading(o, svc, Some(Found(cfg)), Some(true)))
      requires FINALIZER in svc.finalizers <==> Claimed(s, o)
      requires cfg.enabled ==> cfg.network != "" && cfg.cidrs != []
      requires quiet ==> o in s.services && s.services[o] == svc
      modifies `s, `log, `net
      ensures Valid()
      ensures quiet && Unwanted(svc, cfg) && !Claimed(old(s), o) ==> s == old(s) && net == old(net) && r == Done
      ensures quiet && Unwanted(svc, cfg) && Claimed(old(s), o) ==>
                GettingDone(old(s), s, old(net), net, o, cfg.pinned, r)
      ensures quiet && !Unwanted(svc, cfg) ==> GettingThere(old(s), s, old(net), net, layout, o, svc.ports, cfg, r)
      ensures quiet && reliable && r == Fault ==>
                if Unwanted(svc, cfg) then !HasGroup(old(net), cfg) || Busy(old(s), o)
                else Claimed(old(s), o) && !Servable(old(s), old(net), layout, o, svc.ports, cfg)
    {
      hide Worker.Lawful, Inv, Calm;
      var wanted := svc.balanced && cfg.enabled;
      if !wanted && cfg.misconfigured && svc.balanced && FINALIZER !in svc.finalizers {
        r := Done;
      } else if !wanted || svc.deleting {
        r := Cleanup(o, svc, cfg.pinned);
      } else if FINALIZER !in svc.finalizers {
        r := AddFinalizerTo(o, svc);
      } else {
        r := Provide(o, svc, cfg);
      }
    }

    /** One pass over a Service. */
    method Reconcile(o: Owner) returns (r: Outcome)
      requires Valid() && o.cluster == tenant
      modifies this
      ensures Valid() && over == o
      ensures quiet ==> PassOk(old(s), s, old(net), net, layout, o, r) && ServicePass(old(s), s, o)
      ensures quiet && reliable ==> FailsOnlyIf(old(s), old(net), layout, o, r)
    {
      Begin(o);
      r := Pass(o);
      if quiet {
        PassIsAside(origin, past, log, o);
        if Terminating(old(s), tenant) {
          OutOfSight(old(s), s, old(net), net, layout, o, r);
        }
      }
    }

    method Pass(o: Owner) returns (r: Outcome)
      requires Valid() && o == over
      modifies `s, `log, `net
      ensures Valid()
      ensures quiet ==> PassOk(old(s), s, old(net), net, layout, o, r)
      ensures quiet && reliable ==> FailsOnlyIf(old(s), old(net), layout, o, r)
    {
      hide Worker.Lawful, Calm, PassOk, FailsOnlyIf;
      var ok := Ask();
      if !ok {
        NothingDone(s, s, net, layout, o, Fault);
        return Fault;
      }
      if o !in s.services {
        NothingDone(s, s, net, layout, o, Done);
        return Done;
      }
      var svc := s.services[o];
      ghost var before, began := s, net;
      WellFormed(s, o);
      Do(ReadService(o));
      if !svc.balanced && FINALIZER !in svc.finalizers {
        NothingDone(before, s, net, layout, o, Done);
        return Done;
      }
      ghost var read := s;
      r := Judge(o, svc);
      ReadAnew(before, read, s, began, net, layout, o, r);
    }

    lemma WellFormed(s: State, o: Owner)
      requires Inv(s) && o in s.services
      ensures o.Wf() && DistinctPorts(s.services[o].ports)
    {
    }

    method Judge(o: Owner, svc: Service) returns (r: Outcome)
      requires Valid() && o == over && o.Wf() && DistinctPorts(svc.ports) && Reads(s, Reading(o, svc, None, None))
      requires FINALIZER in svc.finalizers <==> Claimed(s, o)
      requires quiet ==> o in s.services && s.services[o] == svc
      modifies `s, `log, `net
      ensures Valid()
      ensures quiet ==> PassOk(old(s), s, old(net), net, layout, o, r)
      ensures quiet && reliable ==> FailsOnlyIf(old(s), old(net), layout, o, r)
    {
      hide Worker.Lawful, Inv, Calm, PassOk, FailsOnlyIf, Dropped;
      var ok := Ask();
      PassKept(old(s), s, o);
      var found := ResolveConfig(s.configs, tenant);
      if !ok || found == Broken {
        NothingDone(s, s, net, layout, o, Fault);
        return Fault;
      }
      ghost var before, began := s, net;
      Do(ReadConfig(tenant));
      ghost var read := s;
      if found == NotFound {
        r := DropFinalizerOf(o, svc, false);
        LetGo(read, s, began, net, layout, o, r);
      } else {
        r := UnlessTerminating(o, svc, found.config);
      }
      ReadAnew(before, read, s, began, net, layout, o, r);
    }

    method UnlessTerminating(o: Owner, svc: Service, cfg: Resolved) returns (r: Outcome)
      requires Valid() && o == over && o.Wf() && DistinctPorts(svc.ports)
      requires Reads(s, Reading(o, svc, Some(Found(cfg)), None))
      requires FINALIZER in svc.finalizers <==> Claimed(s, o)
      requires cfg.enabled ==> cfg.network != "" && cfg.cidrs != []
      requires quiet ==> o in s.services && s.services[o] == svc && ResolveConfig(s.configs, tenant) == Found(cfg)
      modifies `s, `log, `net
      ensures Valid()
      ensures quiet ==> PassOk(old(s), s, old(net), net, layout, o, r)
      ensures quiet && reliable ==> FailsOnlyIf(old(s), old(net), layout, o, r)
    {
      hide Worker.Lawful, Inv, Calm, PassOk, FailsOnlyIf, GettingThere, GettingDone, Dropped, Servable;
      var ok := Ask();
      PassKept(old(s), s, o);
      if !ok {
        NothingDone(s, s, net, layout, o, Fault);
        return Fault;
      }
      var terminating := Terminating(s, tenant);
      ghost var before, began := s, net;
      Do(ReadRelease(tenant));
      ghost var read := s;
      if terminating {
        r := StepAside(o, svc, cfg);
        LetGo(read, s, began, net, layout, o, r);
      } else {
        r := Act(o, svc, cfg);
        if quiet {
          Acted(read, s, began, net, layout, o, cfg, r, reliable);
        }
      }
      ReadAnew(before, read, s, began, net, layout, o, r);
    }

    // What the parts of a pass amount to.

    lemma NothingDone(a: State, b: State, n: Network, layout: Layout, o: Owner, r: Outcome)
      requires b == a.(readings := b.readings)
      requires r == Fault || (r == Done && (o !in a.services || (!Claimed(a, o) && !a.services[o].balanced)))
      ensures PassOk(a, b, n, n, layout, o, r)
      ensures r == Done || ResolveConfig(a.configs, o.cluster).Broken? ==> FailsOnlyIf(a, n, layout, o, r)
    {
    }

    lemma LetGo(a: State, b: State, m: Network, n: Network, layout: Layout, o: Owner, r: Outcome)
      requires r in {Done, Fault}
      ensures var found := ResolveConfig(a.configs, o.cluster);
              (found.NotFound? || (found.Found? && Terminating(a, o.cluster))) ==>
                && (r == Done ==> FailsOnlyIf(a, m, layout, o, r))
                && (Claimed(a, o) && LettingGo(a, b, m, n, o, found, r) ==> PassOk(a, b, m, n, layout, o, r))
                && (!Claimed(a, o) && b == a && n == m ==> PassOk(a, b, m, n, layout, o, r))
    {
    }

    lemma Acted(a: State, b: State, m: Network, n: Network, layout: Layout, o: Owner, cfg: Resolved, r: Outcome,
                reliable: bool)
      requires !Terminating(a, o.cluster) && ResolveConfig(a.configs, o.cluster) == Found(cfg) && o in a.services
      requires var svc := a.services[o];
               && (Unwanted(svc, cfg) && !Claimed(a, o) ==> b == a && n == m && r == Done)
               && (Unwanted(svc, cfg) && Claimed(a, o) ==> GettingDone(a, b, m, n, o, cfg.pinned, r))
               && (!Unwanted(svc, cfg) ==> GettingThere(a, b, m, n, layout, o, svc.ports, cfg, r))
               && (reliable && r == Fault ==>
                     if Unwanted(svc, cfg) then !HasGroup(m, cfg) || Busy(a, o)
                     else Claimed(a, o) && !Servable(a, m, layout, o, svc.ports, cfg))
      ensures PassOk(a, b, m, n, layout, o, r) && (reliable ==> FailsOnlyIf(a, m, layout, o, r))
    {
    }

    /** What a pass does is no different for what was read along the way. */
    lemma ReadAnew(a: State, x: State, b: State, m: Network, n: Network, layout: Layout, o: Owner, r: Outcome)
      requires x == a.(readings := x.readings)
      ensures PassOk(x, b, m, n, layout, o, r) ==> PassOk(a, b, m, n, layout, o, r)
      ensures FailsOnlyIf(x, m, layout, o, r) ==> FailsOnlyIf(a, m, layout, o, r)
    {
      SameFailures(a, x, m, layout, o, r);
      SameEndings(a, x, b, m, n, o, r);
      SameRelease(a, x, b, m, n, o, r);
      if WantsService(a, o) {
        SameSteps(a, x, b, m, n, layout, o, a.services[o].ports, ConfigOf(a, o), r);
      }
      hide GettingThere, GettingDone, LettingGo, FailsOnlyIf, ResolveConfig;
    }

    lemma SameRelease(a: State, x: State, b: State, m: Network, n: Network, o: Owner, r: Outcome)
      requires x == a.(readings := x.readings)
      ensures forall found :: LettingGo(x, b, m, n, o, found, r) ==> LettingGo(a, b, m, n, o, found, r)
    {
      hide OnlyFewer;
    }

    lemma SameSteps(a: State, x: State, b: State, m: Network, n: Network, layout: Layout, o: Owner,
                    ports: seq<ServicePort>, cfg: Resolved, r: Outcome)
      requires x == a.(readings := x.readings)
      ensures GettingThere(x, b, m, n, layout, o, ports, cfg, r) ==> GettingThere(a, b, m, n, layout, o, ports, cfg, r)
    {
      hide GoalOf, IsProvided, Exposing, Settled, IsClaimed, IsCreated, NoLB, Busy, Leaving, Claimed;
      SameLooks(a, x, o);
      SameRequests(a, x, b, o, layout.furnished);
      var g := GoalOf(m, ports, cfg.network);
      forall id | Serves(x, b, o, id, g) ensures Serves(a, b, o, id, g) {
        SameExposing(a, x, b, o, id);
      }
      assert IsServed(x, b, o, g) ==> IsServed(a, b, o, g);
      assert OneChange(x, b, o, g) ==> OneChange(a, b, o, g);
    }

    lemma SameLooks(a: State, x: State, o: Owner)
      requires x == a.(readings := x.readings)
      ensures NoLB(x, o) == NoLB(a, o) && Busy(x, o) == Busy(a, o) && Leaving(x, o) == Leaving(a, o)
      ensures Claimed(x, o) == Claimed(a, o)
    {
    }

    lemma SameExposing(a: State, x: State, b: State, o: Owner, id: nat)
      requires x == a.(readings := x.readings)
      ensures Exposing(x, b, o, id) ==> Exposing(a, b, o, id)
    {
    }

    lemma SameRequests(a: State, x: State, b: State, o: Owner, furnished: bool)
      requires x == a.(readings := x.readings)
      ensures IsClaimed(x, b, o) ==> IsClaimed(a, b, o)
      ensures IsCreated(x, b, o, furnished) ==> IsCreated(a, b, o, furnished)
    {
    }

    lemma SameEndings(a: State, x: State, b: State, m: Network, n: Network, o: Owner, r: Outcome)
      requires x == a.(readings := x.readings)
      ensures forall pin :: GettingDone(x, b, m, n, o, pin, r) ==> GettingDone(a, b, m, n, o, pin, r)
    {
      hide RulesGone;
      assert Left(x, o) == Left(a, o);
    }

    lemma SameFailures(a: State, x: State, m: Network, layout: Layout, o: Owner, r: Outcome)
      requires x == a.(readings := x.readings)
      ensures FailsOnlyIf(x, m, layout, o, r) ==> FailsOnlyIf(a, m, layout, o, r)
    {
    }

    // -------------------------------------------------------------- passes in a row

    /** Passes over any Services leave every other Service's rules and the baseline in every group. */
    method Round(os: seq<Owner>, ghost p: Owner)
      requires Valid() && quiet && p.Wf() && p !in os && forall o :: o in os ==> o.cluster == tenant
      modifies this
      ensures Valid() && RulesStay(old(net), net, p)
    {
      hide Worker.Lawful, Inv, Calm, PassOk, ServicePass, FailsOnlyIf, RulesStay;
      AllStay(net, p);
      for i := 0 to |os|
        invariant Valid() && RulesStay(old(net), net, p)
      {
        ghost var before, between := s, net;
        var r := Reconcile(os[i]);
        PassKeepsRules(before, s, between, net, layout, os[i], r, p);
        StayTrans(old(net), between, net, p);
      }
    }

    lemma AllStay(n: Network, p: Owner)
      ensures RulesStay(n, n, p)
    {
    }

    lemma StayTrans(a: Network, b: Network, c: Network, p: Owner)
      requires RulesStay(a, b, p) && RulesStay(b, c, p)
      ensures RulesStay(a, c, p)
    {
    }

    lemma PassKeepsRules(a: State, b: State, m: Network, n: Network, layout: Layout, o: Owner, r: Outcome, p: Owner)
      requires Inv(a) && PassOk(a, b, m, n, layout, o, r) && o != p && p.Wf()
      ensures RulesStay(m, n, p)
    {
      hide RulesStay;
      AllStay(n, p);
      PassIsNetAside(a, b, m, n, layout, o, r);
      if n != m {
        WellFormed(a, o);
        AsideIsSafe(m, n, layout, o, ConfigOf(a, o), p);
      }
    }

    /** What a pass changes of the network it changes within its frame. */
    lemma PassIsNetAside(a: State, b: State, m: Network, n: Network, layout: Layout, o: Owner, r: Outcome)
      requires PassOk(a, b, m, n, layout, o, r)
      ensures n == m || (o in a.services && ResolveConfig(a.configs, o.cluster).Found?
                         && NetAside(m, n, layout, o, ConfigOf(a, o)))
    {
      hide GroupsAside, IsServed, IsProvided, Left, Published, AllStanding, RulesGone, Dropped;
    }

    lemma AsideIsSafe(m: Network, n: Network, layout: Layout, o: Owner, cfg: Resolved, p: Owner)
      requires NetAside(m, n, layout, o, cfg) && o.Wf() && p.Wf() && o != p
      ensures RulesStay(m, n, p)
    {
      forall rule | Foreign(rule, p) ensures !Owned(rule, o) {
        ForeignNotOwned(rule, o, p);
      }
    }

    lemma ForeignNotOwned(rule: Rule, o: Owner, p: Owner)
      requires Foreign(rule, p) && o.Wf() && p.Wf() && o != p
      ensures !Owned(rule, o)
    {
      if k :| rule == RuleFor(p, k) {
        OthersNotOwned(o, p, k, false);
      } else {
        OthersNotOwned(o, p, RuleKey(0, "", ""), rule == Baseline(true));
      }
    }

    /** Octavia finishes what it is doing with the Service's balancer. */
    method OctaviaFinishes(o: Owner)
      requires Valid() && o == over
      modifies `s, `log, `past
      ensures Valid() && !Busy(s, o) && !Leaving(s, o)
      ensures s == old(s).(lbs := s.lbs) && OctaviaDid(old(s), s, o)
    {
      hide Worker.Lawful, Inv, Calm;
      if exists id :: id in s.lbs && s.lbs[id].owner == o {
        var id :| id in s.lbs && s.lbs[id].owner == o;
        OneBalancer(s, o, id);
        if s.lbs[id].status == PendingDelete {
          Vanishes(s, o, id);
          Advance(Vanish(id));
        } else if s.lbs[id].status in {PendingCreate, PendingUpdate} {
          Settles(s, o, id);
          Advance(Settle(id, Active));
        }
      }
    }

    lemma Vanishes(s: State, o: Owner, id: nat)
      requires id in s.lbs && s.lbs[id].status == PendingDelete && s.lbs[id].owner == o
      requires forall x :: x in s.lbs && s.lbs[x].owner == o ==> x == id
      ensures Enabled(s, Vanish(id))
      ensures var s' := Apply(s, Vanish(id));
              s' == s.(lbs := s'.lbs) && !Busy(s', o) && !Leaving(s', o) && OctaviaDid(s, s', o)
    {
    }

    lemma Settles(s: State, o: Owner, id: nat)
      requires id in s.lbs && s.lbs[id].status in {PendingCreate, PendingUpdate} && s.lbs[id].owner == o
      requires forall x :: x in s.lbs && s.lbs[x].owner == o ==> x == id
      ensures Enabled(s, Settle(id, Active))
      ensures var s' := Apply(s, Settle(id, Active));
              s' == s.(lbs := s'.lbs) && !Busy(s', o) && !Leaving(s', o) && OctaviaDid(s, s', o)
    {
    }

    /**
     Cleanup ends: with requests served and Octavia keeping up, passes over a claimed
     Service that has to go stop with nothing of it left; in an operator's group only
     a key that two of its rules shared.
     */
    method Drain(o: Owner, ghost pin: string)
      requires Valid() && quiet && reliable && o.cluster == tenant
      requires o in s.services && tenant in s.releases && tenant in s.configs
      requires FINALIZER in s.services[o].finalizers && !s.releases[tenant].deleting
      requires s.configs[tenant].creds == Usable
      requires var svc, c := s.services[o], s.configs[tenant];
               && (svc.deleting || !svc.balanced || !c.enabled || c.network == "")
               && pin == (if c.enabled && c.network != "" then c.pinned else "")
               && (pin != "" ==> pin in net.pinned)
      requires forall f :: f in s.fips && s.fips[f].owner == o ==>
                             var port := s.fips[f].port;
                             && port in s.lbs && s.lbs[port].owner == o && s.lbs[port].hasPort
                             && s.lbs[port].status != PendingDelete
      modifies this
      ensures Valid() && Aside(old(s), s, o) && OnlyFewer(old(net), net, o, pin)
      ensures var was := old(s).services[o];
              if was.deleting && was.finalizers == {FINALIZER} then o !in s.services
              else o in s.services
                   && s.services[o] == was.(ingress := [], finalizers := was.finalizers - {FINALIZER})
      ensures forall id :: id in s.lbs ==> s.lbs[id].owner != o
      ensures forall f :: f in s.fips ==> s.fips[f].owner != o
      ensures pin == "" && net.managed.Some? ==>
                forall i :: i in net.managed.value ==> !Owned(net.managed.value[i], o)
      ensures pin != "" ==>
                && pin in net.pinned && pin in old(net).pinned
                && forall k :: HasKey(net.pinned[pin], o, k) ==> Twice(old(net).pinned[pin], o, k)
    {
      hide Worker.Lawful, Inv, Calm, OnlyFewer, Aside, HasKey, Twice, Owned;
      DrainEnding(o, pin);
      NoneOwned(net.managed, o);
    }

    method DrainEnding(o: Owner, ghost pin: string)
      requires Valid() && quiet && reliable && o.cluster == tenant && AllStanding(s, o)
      requires Ending(s, o) && ConfigOf(s, o).pinned == pin && (pin != "" ==> pin in net.pinned)
      modifies this
      ensures Valid() && Aside(old(s), s, o) && OnlyFewer(old(net), net, o, pin)
      ensures FreedAs(old(s).services[o].(ingress := []), s, o) && LeftIn(old(net), net, pin, o)
      ensures NoLB(s, o) && AllStanding(s, o)
    {
      hide Worker.Lawful, Inv, Calm, OnlyFewer, Aside, LeftIn, FreedAs;
      ghost var begin, first := s, net;
      Begin(o);
      SameAll(s, net, o, pin);
      while Claimed(s, o)
        invariant Valid() && over == o && Aside(begin, s, o) && OnlyFewer(first, net, o, pin) && AllStanding(s, o)
        invariant Claimed(s, o) ==> Ending(s, o) && ConfigOf(s, o).pinned == pin && (pin != "" ==> pin in net.pinned)
        invariant Claimed(s, o) ==> s.services[o] == begin.services[o].(ingress := s.services[o].ingress)
        invariant !Claimed(s, o) ==>
                    NoLB(s, o) && FreedAs(begin.services[o].(ingress := []), s, o) && LeftIn(first, net, pin, o)
        decreases Left(s, o)
      {
        ghost var before, between := s, net;
        OctaviaFinishes(o);
        DrainsOn(before, s, o);
        ghost var settled := s;
        AsideTrans(begin, before, settled, o);
        var r := Reconcile(o);
        DrainsFurther(settled, s, between, net, layout, o, r, pin);
        AsideTrans(begin, settled, s, o);
        if !Claimed(s, o) {
          LeftSince(first, between, net, pin, o);
        }
        OnlyFewerTrans(first, between, net, o, pin);
      }
    }

    /** No rule of the Service is left, but for keys that two of its rules in an operator's group shared. */
    ghost predicate LeftIn(m: Network, n: Network, pin: string, o: Owner) {
      if pin == "" then NoRules(n.managed, o)
      else pin in m.pinned && pin in n.pinned
           && forall k :: HasKey(n.pinned[pin], o, k) ==> Twice(m.pinned[pin], o, k)
    }

    lemma LeftSince(a: Network, b: Network, c: Network, pin: string, o: Owner)
      requires OnlyFewer(a, b, o, pin) && RulesGone(b, c, pin, o)
      ensures LeftIn(a, c, pin, o)
    {
      hide Owned;
      if pin != "" {
        forall k | Twice(b.pinned[pin], o, k) ensures Twice(a.pinned[pin], o, k) {
        }
      }
    }

    lemma NoneOwned(group: Option<Rules>, o: Owner)
      ensures NoRules(group, o) && group.Some? ==> forall i :: i in group.value ==> !Owned(group.value[i], o)
    {
      if NoRules(group, o) && group.Some? {
        var rules := group.value;
        assert forall i :: i in rules && Owned(rules[i], o) ==> HasKey(rules, o, rules[i].Key());
      }
    }

    lemma SameAll(s: State, n: Network, o: Owner, pin: string)
      ensures Aside(s, s, o) && OnlyFewer(n, n, o, pin)
    {
    }

    /** An undisturbed pass with requests served over a Service that has to go, after Octavia has finished. */
    lemma DrainsFurther(a: State, b: State, m: Network, n: Network, layout: Layout, o: Owner, r: Outcome, pin: string)
      requires Ending(a, o) && ConfigOf(a, o).pinned == pin && (pin != "" ==> pin in m.pinned)
      requires !Busy(a, o) && !Leaving(a, o) && AllStanding(a, o)
      requires PassOk(a, b, m, n, layout, o, r) && FailsOnlyIf(a, m, layout, o, r) && Aside(a, b, o)
      ensures Left(b, o) < Left(a, o) && OnlyFewer(m, n, o, pin) && AllStanding(b, o)
      ensures Claimed(b, o) ==> Ending(b, o) && ConfigOf(b, o).pinned == pin && (pin != "" ==> pin in n.pinned)
      ensures Claimed(b, o) ==> b.services[o] == a.services[o].(ingress := b.services[o].ingress)
      ensures !Claimed(b, o) ==>
                NoLB(b, o) && FreedAs(a.services[o].(ingress := []), b, o) && RulesGone(m, n, pin, o)
    {
      hide AllStanding, RulesAside, Subset, Left, GettingThere, LettingGo;
      assert GettingDone(a, b, m, n, o, pin, r);
    }

    lemma DrainsOn(a: State, b: State, o: Owner)
      requires Inv(a) && OctaviaDid(a, b, o) && Ending(a, o) && AllStanding(a, o)
      ensures Left(b, o) <= Left(a, o) && Ending(b, o) && ConfigOf(b, o) == ConfigOf(a, o) && Aside(a, b, o)
      ensures AllStanding(b, o) && b.services == a.services
    {
      hide Inv, Left, Aside, AllStanding;
      OctaviaActsAside(a, b, o);
      if b != a {
        var id :| id in a.lbs && a.lbs[id].owner == o && OctaviaDidTo(a, b, id);
        OneBalancer(a, o, id);
        LessLeft(a, b, o, id);
        StillStanding(a, b, o, id);
      }
    }

    lemma OctaviaActsAside(a: State, b: State, o: Owner)
      requires OctaviaDid(a, b, o)
      ensures Aside(a, b, o)
    {
      hide OctaviaDidTo;
      if b != a {
        var id :| id in a.lbs && a.lbs[id].owner == o && OctaviaDidTo(a, b, id);
        ActsAside(a, b, id);
      }
    }

    lemma ActsAside(a: State, b: State, id: nat)
      requires id in a.lbs && OctaviaDidTo(a, b, id)
      ensures Aside(a, b, a.lbs[id].owner)
    {
      hide SameButLBs, Aside;
      OthersStay(a.lbs, id, a.lbs[id].(status := Active));
      OnlyBalancers(a, b, a.lbs[id].owner);
    }

    lemma OnlyBalancers(a: State, b: State, o: Owner)
      requires b == a.(lbs := b.lbs) && SameButLBs(a.lbs, b.lbs, o)
      ensures Aside(a, b, o)
    {
    }

    lemma OthersStay(lbs: map<nat, LB>, id: nat, lb: LB)
      requires id in lbs && lb.owner == lbs[id].owner
      ensures SameButLBs(lbs, lbs - {id}, lb.owner) && SameButLBs(lbs, lbs[id := lb], lb.owner)
    {
    }

    lemma StillStanding(a: State, b: State, o: Owner, id: nat)
      requires id in a.lbs && a.lbs[id].owner == o && OctaviaDidTo(a, b, id) && AllStanding(a, o)
      ensures AllStanding(b, o)
    {
    }

    lemma LessLeft(a: State, b: State, o: Owner, id: nat)
      requires id in a.lbs && a.lbs[id].owner == o && OctaviaDidTo(a, b, id)
      requires forall x :: x in a.lbs && a.lbs[x].owner == o ==> x == id
      ensures Left(b, o) <= Left(a, o)
    {
      assert b.services == a.services && b.fips == a.fips && HasFIP(b, o) == HasFIP(a, o);
      hide HasFIP, Claimed, Published;
    }

    /** With all actions of a pass acting for one Service, everything else is as it was. */
    lemma {:induction false} PassIsAside(origin: State, past: seq<Action>, log: seq<Action>, o: Owner)
      requires Inv(origin) && Legal(origin, past) && Legal(origin, log) && past <= log && AllFor(log, |past|, o)
      ensures Aside(After(origin, past), After(origin, log), o)
      decreases |log|
    {
      if past == log {
      } else {
        var rest, a := log[..|log| - 1], log[|log| - 1];
        PassIsAside(origin, past, rest, o);
        RunKeepsInv(origin, rest);
        OwnResourcesOnly(After(origin, rest), a, o);
        AsideTrans(After(origin, past), After(origin, rest), After(origin, log), o);
      }
    }

    /** A tenant that is going away, or whose configuration is not to be had, gets and loses nothing. */
    lemma OutOfSight(a: State, b: State, m: Network, n: Network, layout: Layout, o: Owner, r: Outcome)
      requires PassOk(a, b, m, n, layout, o, r) && Terminating(a, o.cluster)
      ensures b.lbs == a.lbs && b.fips == a.fips
    {
      hide GettingThere, GettingDone, OnlyFewer, ResolveConfig;
    }

    /** So it is under a live release but for a late address of a tenant whose release was created again. */
    lemma StandingUnlessLate(s: State, o: Owner)
      requires Inv(s) && o.cluster in s.releases && !s.releases[o.cluster].deleting
      requires forall f :: f in s.fips && s.fips[f].owner == o ==> f !in s.late || o.cluster !in s.recreated
      ensures forall f :: f in s.fips && s.fips[f].owner == o ==>
                            var port := s.fips[f].port;
                            && port in s.lbs && s.lbs[port].owner == o && s.lbs[port].hasPort
                            && s.lbs[port].status != PendingDelete
    {
      assert ReleaseOk(s, o.cluster);
      forall f | f in s.fips && s.fips[f].owner == o ensures Standing(s, s.fips[f].port, o) {
        assert FIPOk(s, f);
      }
    }

    /**
     Provision ends: with requests served, Octavia keeping up and nothing wrong with
     the Service, passes over it stop with the Service provided.
     */
    method Supply(o: Owner)
      requires quiet && reliable && o.cluster == tenant && layout.furnished
      requires o in s.services && tenant in s.releases && tenant in s.configs
      requires !s.releases[tenant].deleting && s.configs[tenant].creds == Usable
      requires var svc, c := s.services[o], s.configs[tenant];
               && svc.balanced && !svc.deleting && c.enabled && c.network != ""
               && c.network in net.subnets && (c.pinned != "" ==> c.pinned in net.pinned)
               && (forall p :: p in svc.ports ==> !p.protocol.Unsupported? && p.nodePort != 0)
      requires forall id :: id in s.lbs && s.lbs[id].owner == o ==>
                 && s.lbs[id].status != Status.Error
                 && if s.configs[tenant].floating == "" && !layout.external then s.lbs[id].address != ""
                    else s.lbs[id].hasPort && forall f :: f in s.fips && s.fips[f].port == id ==>
                           s.fips[f].address != ""
      requires Valid()
      modifies this
      ensures Aside(old(s), s, o) && o in s.services && s.services[o].ports == old(s).services[o].ports
      ensures exists id, address :: Running(s, old(net), net, layout, o, old(s).configs[tenant], id, address)
      ensures NetAside(old(net), net, layout, o, InEffect(old(s).configs[tenant]))
      ensures Valid()
    {
      hide Worker.Lawful, Inv, Calm, Running, Aside, NetAside, IsProvided, Servable, ResolveConfig, InEffect;
      MeansProvidable(s, net, layout, o);
      SupplyWanted(o);
      MeansRunning(old(s), s, old(net), net, layout, o);
    }

    method SupplyWanted(o: Owner)
      requires Valid() && quiet && reliable && o.cluster == tenant && layout.furnished
      requires WantsService(s, o) && Providable(s, net, layout, o)
      modifies this
      ensures Valid() && Aside(old(s), s, o) && WantsService(s, o)
      ensures s.services[o].ports == old(s).services[o].ports
      ensures IsProvided(s, old(net), net, layout, o, s.services[o].ports, ConfigOf(s, o))
      ensures NetAside(old(net), net, layout, o, ConfigOf(s, o))
    {
      hide Worker.Lawful, Inv, Calm;
      ghost var begin, first, g := s, net, GoalFor(s, net, o);
      var r := Done;
      Begin(o);
      while r != Resync
        invariant Valid() && over == o && Aside(begin, s, o) && WantsService(s, o)
        invariant s.services[o].ports == begin.services[o].ports
        invariant r != Resync ==> net == first && Providable(s, net, layout, o)
        invariant r == Resync ==>
                    && IsProvided(s, first, net, layout, o, s.services[o].ports, ConfigOf(s, o))
                    && NetAside(first, net, layout, o, ConfigOf(s, o))
        decreases r != Resync, Stage(s, o), Effort(s, o, g)
      {
        ghost var before := s;
        OctaviaFinishes(o);
        SuppliesOn(before, s, net, layout, o, g);
        ghost var settled := s;
        AsideTrans(begin, before, settled, o);
        r := Reconcile(o);
        AsideTrans(begin, settled, s, o);
        OneStageNearer(settled, s, first, net, layout, o, r, g);
      }
    }

    lemma MeansProvidable(s: State, n: Network, layout: Layout, o: Owner)
      requires WantsService(s, o)
      requires var c := s.configs[o.cluster];
               && c.network in n.subnets && (c.pinned != "" ==> c.pinned in n.pinned)
               && (forall p :: p in s.services[o].ports ==> !p.protocol.Unsupported? && p.nodePort != 0)
      requires forall id :: id in s.lbs && s.lbs[id].owner == o ==>
                 && s.lbs[id].status != Status.Error
                 && if s.configs[o.cluster].floating == "" && !layout.external then s.lbs[id].address != ""
                    else s.lbs[id].hasPort && layout.furnished
                         && forall f :: f in s.fips && s.fips[f].port == id ==> s.fips[f].address != ""
      ensures Providable(s, n, layout, o)
    {
      PortErrorIff(GoalFor(s, n, o), s.services[o].ports);
    }

    lemma MeansRunning(a: State, s: State, m: Network, n: Network, layout: Layout, o: Owner)
      requires Aside(a, s, o) && WantsService(a, o) && WantsService(s, o) && a.configs[o.cluster].network in m.subnets
      requires IsProvided(s, m, n, layout, o, s.services[o].ports, ConfigOf(s, o))
      ensures s.configs == a.configs && ConfigOf(s, o) == InEffect(a.configs[o.cluster])
      ensures exists id, address :: Running(s, m, n, layout, o, s.configs[o.cluster], id, address)
    {
      hide BalancesJust, Settled, InGrid, Twice, HasKey;
      var ports, c := s.services[o].ports, s.configs[o.cluster];
      var id, address :| Provided(s, m, n, layout, o, ports, ConfigOf(s, o), id, address);
      GridKeyByKey(ports, ConfigOf(s, o).cidrs);
      SettledMeans(s.lbs[id].view, GoalOf(m, ports, c.network));
      assert Running(s, m, n, layout, o, c, id, address);
    }

    lemma SuppliesOn(a: State, b: State, n: Network, layout: Layout, o: Owner, g: Goal)
      requires Inv(a) && OctaviaDid(a, b, o) && WantsService(a, o) && Providable(a, n, layout, o)
      ensures WantsService(b, o) && b.services == a.services && b.configs == a.configs && Providable(b, n, layout, o)
      ensures Aside(a, b, o)
      ensures Stage(b, o) < Stage(a, o) || (Stage(b, o) == Stage(a, o) && Effort(b, o, g) == Effort(a, o, g))
    {
      hide Inv, Aside, Servable, Stage, Effort;
      OctaviaActsAside(a, b, o);
      if b != a {
        var id :| id in a.lbs && a.lbs[id].owner == o && OctaviaDidTo(a, b, id);
        OneBalancer(a, o, id);
        StaysServable(a, b, n, layout, o, a.services[o].ports, ConfigOf(a, o), id);
        LaterStage(a, b, o, g, id);
      }
    }

    lemma StaysServable(a: State, b: State, n: Network, layout: Layout, o: Owner, ports: seq<ServicePort>,
                        cfg: Resolved, id: nat)
      requires id in a.lbs && OctaviaDidTo(a, b, id) && Servable(a, n, layout, o, ports, cfg)
      ensures Servable(b, n, layout, o, ports, cfg)
    {
    }

    lemma LaterStage(a: State, b: State, o: Owner, g: Goal, id: nat)
      requires id in a.lbs && a.lbs[id].owner == o && OctaviaDidTo(a, b, id)
      requires forall x :: x in a.lbs && a.lbs[x].owner == o ==> x == id
      ensures Stage(b, o) < Stage(a, o) || (Stage(b, o) == Stage(a, o) && Effort(b, o, g) == Effort(a, o, g))
    {
      assert a.lbs[id].status != PendingDelete ==> id in b.lbs && b.lbs[id].owner == o;
      assert forall x :: x in b.lbs && b.lbs[x].owner == o ==> x == id;
    }

    /** A pass over a providable Service provides it, or leaves it providable and one stage or change nearer. */
    lemma OneStageNearer(a: State, b: State, m: Network, n: Network, layout: Layout, o: Owner, r: Outcome, g: Goal)
      requires Inv(a) && WantsService(a, o) && Providable(a, m, layout, o) && !Busy(a, o) && !Leaving(a, o)
      requires layout.furnished && g == GoalFor(a, m, o)
      requires PassOk(a, b, m, n, layout, o, r) && Aside(a, b, o) && FailsOnlyIf(a, m, layout, o, r)
      ensures WantsService(b, o) && b.services[o].ports == a.services[o].ports && b.configs == a.configs
      ensures r == Resync ==> IsProvided(b, m, n, layout, o, b.services[o].ports, ConfigOf(b, o))
      ensures NetAside(m, n, layout, o, ConfigOf(b, o))
      ensures r != Resync ==>
                && n == m && Providable(b, n, layout, o)
                && (Stage(b, o) < Stage(a, o) || (Stage(b, o) == Stage(a, o) && Effort(b, o, g) < Effort(a, o, g)))
    {
      hide Inv, IsProvided, Servable, Stage, Effort, IsCreated, IsChanged, IsClaimed, Serves, GoalOf, NetAside;
      var ports, cfg := a.services[o].ports, ConfigOf(a, o);
      assert GettingThere(a, b, m, n, layout, o, ports, cfg, r);
      SameService(a, b, m, n, layout, o, ports, cfg, r);
      if r == Done {
        ClaimIsNearer(a, b, m, layout, o, ports, cfg);
      } else if r == Requeue && NoLB(a, o) {
        RequestIsNearer(a, b, m, layout, o, ports, cfg);
      } else if r == Requeue {
        var id :| id in a.lbs && a.lbs[id].owner == o && IsChanged(a, b, id, g);
        OneBalancer(a, o, id);
        ChangeIsNearer(a, b, m, layout, o, ports, cfg, id, g);
      } else {
        assert r == Resync;
      }
      assert SameSpec(a, b, o) && ConfigOf(b, o) == cfg;
      assert r != Resync ==> n == m && Servable(b, n, layout, o, ports, cfg);
    }

    lemma SameService(a: State, b: State, m: Network, n: Network, layout: Layout, o: Owner, ports: seq<ServicePort>,
                      cfg: Resolved, r: Outcome)
      requires GettingThere(a, b, m, n, layout, o, ports, cfg, r) && o in a.services
      ensures b.configs == a.configs && b.releases == a.releases && SameSpec(a, b, o)
    {
      hide IsProvided, GoalOf, Busy, Leaving, NoLB, OneChange, Claimed, Serves, IsCreated, IsClaimed, SameSpec;
      var g := GoalOf(m, ports, cfg.network);
      SpecKept(a, b, o, layout.furnished);
      if id :| Serves(a, b, o, id, g) {
        SpecKeptServing(a, b, o, id, g);
      } else if b == a.(readings := b.readings) {
        SpecKeptReading(a, b, o);
      }
    }

    predicate SameSpec(a: State, b: State, o: Owner)
      requires o in a.services
    {
      && o in b.services
      && var now, was := b.services[o], a.services[o];
         now.balanced == was.balanced && now.deleting == was.deleting && now.ports == was.ports
    }

    lemma SpecKeptReading(a: State, b: State, o: Owner)
      requires o in a.services && b == a.(readings := b.readings)
      ensures b.configs == a.configs && b.releases == a.releases && SameSpec(a, b, o)
    {
    }

    lemma SpecKept(a: State, b: State, o: Owner, furnished: bool)
      requires o in a.services
      ensures IsClaimed(a, b, o) || IsCreated(a, b, o, furnished) ==>
                b.configs == a.configs && b.releases == a.releases && SameSpec(a, b, o)
    {
    }

    lemma SpecKeptServing(a: State, b: State, o: Owner, id: nat, g: Goal)
      requires o in a.services && Serves(a, b, o, id, g)
      ensures b.configs == a.configs && b.releases == a.releases && SameSpec(a, b, o)
    {
    }

    lemma ClaimIsNearer(a: State, b: State, n: Network, layout: Layout, o: Owner, ports: seq<ServicePort>,
                        cfg: Resolved)
      requires IsClaimed(a, b, o) && !Claimed(a, o) && Servable(a, n, layout, o, ports, cfg)
      ensures Servable(b, n, layout, o, ports, cfg) && Stage(b, o) < Stage(a, o)
    {
    }

    lemma RequestIsNearer(a: State, b: State, n: Network, layout: Layout, o: Owner, ports: seq<ServicePort>,
                          cfg: Resolved)
      requires NoLB(a, o) && IsCreated(a, b, o, true) && layout.furnished && Servable(a, n, layout, o, ports, cfg)
      ensures Servable(b, n, layout, o, ports, cfg) && Stage(b, o) < Stage(a, o)
    {
    }

    lemma ChangeIsNearer(a: State, b: State, n: Network, layout: Layout, o: Owner, ports: seq<ServicePort>,
                         cfg: Resolved, id: nat, g: Goal)
      requires id in a.lbs && a.lbs[id].owner == o && IsChanged(a, b, id, g) && Servable(a, n, layout, o, ports, cfg)
      requires forall x :: x in a.lbs && a.lbs[x].owner == o ==> x == id
      ensures Servable(b, n, layout, o, ports, cfg)
      ensures Stage(b, o) <= Stage(a, o) && Effort(b, o, g) < Effort(a, o, g)
    {
    }
  }

  // ---------------------------------------------------------------- what passes do, as relations between states

  /** The Service's rules are gone, except where two of them shared a key. */
  ghost predicate Wiped(before: Rules, after: Rules, o: Owner) {
    forall k :: HasKey(after, o, k) <==> Twice(before, o, k)
  }

  ghost predicate NoRules(group: Option<Rules>, o: Owner) {
    group.Some? ==> forall k :: !HasKey(group.value, o, k)
  }

  ghost predicate RulesGone(m: Network, n: Network, pin: string, o: Owner) {
    if pin == "" then NoRules(n.managed, o)
    else pin in m.pinned && pin in n.pinned && Wiped(m.pinned[pin], n.pinned[pin], o)
  }

  /** Exactly the wanted keys; in an operator's group also those that two rules of the Service shared. */
  ghost predicate RulesSet(m: Network, n: Network, pin: string, o: Owner, wanted: set<RuleKey>) {
    if pin == "" then n.managed.Some? && forall k :: HasKey(n.managed.value, o, k) <==> k in wanted
    else
      && pin in m.pinned && pin in n.pinned
      && forall k :: HasKey(n.pinned[pin], o, k) <==> k in wanted || Twice(m.pinned[pin], o, k)
  }

  // What a pass over one Service may change of the network.

  function RulesIn(group: Option<Rules>): Rules {
    if group.Some? then group.value else map[]
  }

  /** Only rules of the Service changed, and only in the group its rules go to. */
  ghost predicate GroupsAside(m: Network, n: Network, o: Owner, pin: string) {
    if pin == "" then
      && n.pinned == m.pinned && (m.managed.Some? ==> n.managed.Some?)
      && RulesAside(RulesIn(m.managed), RulesIn(n.managed), o)
    else
      && n.managed == m.managed && n.pinned.Keys == m.pinned.Keys
      && (forall g :: g in m.pinned && g != pin ==> n.pinned[g] == m.pinned[g])
      && (pin in m.pinned ==> RulesAside(m.pinned[pin], n.pinned[pin], o))
  }

  ghost predicate OnlyRules(m: Network, n: Network, o: Owner, pin: string) {
    n == m.(managed := n.managed, pinned := n.pinned) && GroupsAside(m, n, o, pin)
  }

  /** Of the rules of the Service some may be gone; nothing else changed. */
  ghost predicate OnlyFewer(m: Network, n: Network, o: Owner, pin: string) {
    && OnlyRules(m, n, o, pin) && Subset(RulesIn(n.managed), RulesIn(m.managed))
    && forall g :: g in n.pinned && g in m.pinned ==> Subset(n.pinned[g], m.pinned[g])
  }

  predicate Subset(now: Rules, before: Rules) {
    forall i :: i in now ==> i in before && before[i] == now[i]
  }

  lemma OnlyFewerTrans(a: Network, b: Network, c: Network, o: Owner, pin: string)
    requires OnlyFewer(a, b, o, pin) && OnlyFewer(b, c, o, pin)
    ensures OnlyFewer(a, c, o, pin)
  {
    OnlyRulesTrans(a, b, c, o, pin);
    hide RulesAside;
  }

  /** Ports that carry no worker address stay as they are, the others get the group and lose the default one. */
  predicate PortsAside(before: map<nat, seq<string>>, after: map<nat, seq<string>>, layout: Layout, sg: string,
                       ips: seq<string>, network: string)
  {
    && after.Keys == before.Keys
    && forall p :: p in before && after[p] != before[p] ==>
                     && Regrouped(before[p], after[p], sg, layout.defaultSG)
                     && exists ip :: ip in ips && (network, ip) in layout.portOf && layout.portOf[(network, ip)] == p
  }

  /** Besides the Service's own rules only worker ports changed, and none with an operator's group. */
  ghost predicate NetAside(m: Network, n: Network, layout: Layout, o: Owner, cfg: Resolved) {
    && n == m.(managed := n.managed, pinned := n.pinned, ports := n.ports) && GroupsAside(m, n, o, cfg.pinned)
    && if cfg.pinned != "" then n.ports == m.ports
       else PortsAside(m.ports, n.ports, layout, ClusterSGName(o.cluster), Workers(m, cfg.network), cfg.network)
  }

  /** Written for this Service, or a baseline rule. */
  ghost predicate Foreign(rule: Rule, p: Owner) {
    rule == Baseline(false) || rule == Baseline(true) || exists k :: rule == RuleFor(p, k)
  }

  /** The Service's rules and the baseline are still in every group they were in. */
  ghost predicate RulesStay(m: Network, n: Network, p: Owner) {
    && (forall i :: i in RulesIn(m.managed) && Foreign(RulesIn(m.managed)[i], p) ==>
          i in RulesIn(n.managed) && RulesIn(n.managed)[i] == RulesIn(m.managed)[i])
    && (forall g, i :: g in m.pinned && i in m.pinned[g] && Foreign(m.pinned[g][i], p) ==>
          g in n.pinned && i in n.pinned[g] && n.pinned[g][i] == m.pinned[g][i])
  }

  lemma SameRules(n: Network, o: Owner, pin: string)
    ensures OnlyRules(n, n, o, pin) && OnlyFewer(n, n, o, pin)
  {
  }

  lemma SameNet(n: Network, layout: Layout, o: Owner, cfg: Resolved)
    ensures NetAside(n, n, layout, o, cfg)
  {
  }

  lemma OnlyRulesTrans(a: Network, b: Network, c: Network, o: Owner, pin: string)
    requires OnlyRules(a, b, o, pin) && OnlyRules(b, c, o, pin)
    ensures OnlyRules(a, c, o, pin)
  {
    if pin == "" {
      RulesAsideTrans(RulesIn(a.managed), RulesIn(b.managed), RulesIn(c.managed), o);
    } else if pin in a.pinned {
      RulesAsideTrans(a.pinned[pin], b.pinned[pin], c.pinned[pin], o);
    }
  }

  /** Every worker port found carries the cluster's group and not the default one. */
  predicate Isolated(ports: map<nat, seq<string>>, layout: Layout, sg: string, ips: seq<string>, network: string) {
    forall ip :: ip in ips && (network, ip) in layout.portOf ==>
                   && layout.portOf[(network, ip)] in ports && sg in ports[layout.portOf[(network, ip)]]
                   && (layout.defaultSG.Some? ==> layout.defaultSG.value !in ports[layout.portOf[(network, ip)]])
  }

  function WithIngress(s: State, o: Owner, ingress: seq<string>): State
    requires o in s.services
  {
    s.(services := s.services[o := s.services[o].(ingress := ingress)])
  }

  /** The snapshot of a balancer the worker goes on with. */
  predicate Seen(s: State, id: nat, o: Owner, lb: Option<LB>) {
    && lb.Some? && Known(s, id, o) && id in s.lbs && s.lbs[id] == lb.value && lb.value.owner == o
    && (lb.value.hasPort && lb.value.status != PendingDelete ==> Grip(s, id, o))
  }

  predicate Errored(s: State, o: Owner) {
    exists id :: id in s.lbs && s.lbs[id].owner == o && s.lbs[id].status == Status.Error
  }

  /** Octavia is still creating or updating the Service's balancer and refuses to delete it. */
  predicate Busy(s: State, o: Owner) {
    exists id :: id in s.lbs && s.lbs[id].owner == o && s.lbs[id].status in {PendingCreate, PendingUpdate}
  }

  predicate Leaving(s: State, o: Owner) {
    exists id :: id in s.lbs && s.lbs[id].owner == o && s.lbs[id].status == PendingDelete
  }

  /** A Service has at most one balancer, so its state is that of the Service. */
  lemma OneBalancer(s: State, o: Owner, id: nat)
    requires Inv(s) && id in s.lbs && s.lbs[id].owner == o
    ensures !NoLB(s, o) && (Leaving(s, o) <==> s.lbs[id].status == PendingDelete)
    ensures Busy(s, o) <==> s.lbs[id].status in {PendingCreate, PendingUpdate}
    ensures Errored(s, o) <==> s.lbs[id].status == Status.Error
    ensures forall x :: x in s.lbs && s.lbs[x].owner == o ==> x == id
  {
  }

  // What a pass has read it may have read anew, so `readings` is left open below.

  /** The finalizer went onto the Service. */
  predicate IsClaimed(a: State, b: State, o: Owner) {
    && o in a.services && o in b.services && Claimed(b, o)
    && b == a.(services := a.services[o := a.services[o].(finalizers := a.services[o].finalizers + {FINALIZER})],
               readings := b.readings)
  }

  /** All that happened is a request for one new balancer of the Service. */
  predicate IsCreated(a: State, b: State, o: Owner, furnished: bool) {
    && b == a.(lbs := b.lbs, owners := b.owners, nextId := a.nextId + 1, readings := b.readings)
    && a.nextId !in a.lbs && a.nextId in b.lbs && b.lbs == a.lbs[a.nextId := b.lbs[a.nextId]]
    && b.lbs[a.nextId].owner == o && b.lbs[a.nextId].status == PendingCreate && PortFree(b, a.nextId)
    && (furnished ==> b.lbs[a.nextId].hasPort && b.lbs[a.nextId].address != "")
  }

  /** All that happened is one change inside the balancer that brings it closer to its goal. */
  predicate IsChanged(a: State, b: State, id: nat, g: Goal) {
    && id in a.lbs && id in b.lbs && b == a.(lbs := a.lbs[id := b.lbs[id]], readings := b.readings)
    && b.lbs[id] == a.lbs[id].(view := b.lbs[id].view, status := PendingUpdate)
    && Work(b.lbs[id].view, g) < Work(a.lbs[id].view, g)
  }

  /** One step on a settled balancer's view; at most one change. */
  method StepView(reliable: bool, view: View, g: Goal) returns (r: SyncResult, changed: bool, after: View)
    requires ValidView(view) && g.Wf()
    ensures ValidView(after)
    ensures if changed then Work(after, g) < Work(view, g) && r != InSync else after == view && r != Pending
    ensures r == InSync ==> Settled(view, g)
    ensures reliable && PortError(g.ports) == None ==> r == if Settled(view, g) then InSync else Pending
  {
    var octavia := new Octavia(reliable, Active, view);
    r := octavia.SyncListenersAndMembers(g);
    changed, after := octavia.status != Active, octavia.view;
  }

  /** All that happened is the allocation of one address on the balancer's port. */
  predicate IsBound(a: State, b: State, o: Owner, id: nat) {
    && b == a.(fips := b.fips, nextId := a.nextId + 1, late := b.late)
    && a.nextId !in a.fips && a.nextId in b.fips && PortFree(a, id)
    && b.fips == a.fips[a.nextId := FIP(o, id, b.fips[a.nextId].address)]
  }

  predicate Carries(s: State, id: nat, o: Owner, address: string) {
    exists f :: f in s.fips && s.fips[f] == FIP(o, id, address)
  }

  /** The address on the port, if any, is known. */
  predicate Addressed(s: State, id: nat) {
    forall f :: f in s.fips && s.fips[f].port == id ==> s.fips[f].address != ""
  }

  /** A floating IP is wanted: a network for it is configured, or there is one to be found. */
  predicate External(layout: Layout, floating: string) {
    floating != "" || layout.external
  }

  /** What exposing a balancer may change: an address on its port, and the published one. */
  predicate Exposing(a: State, b: State, o: Owner, id: nat) {
    && b == a.(fips := b.fips, nextId := b.nextId, late := b.late, services := b.services, readings := b.readings)
    && (b.fips == a.fips || (PortFree(a, id) && a.nextId in b.fips && a.nextId !in a.fips
                             && b.fips == a.fips[a.nextId := FIP(o, id, b.fips[a.nextId].address)]))
    && (b.services == a.services
        || (o in a.services && o in b.services
            && b.services == a.services[o := a.services[o].(ingress := b.services[o].ingress)]))
  }

  /** Reachable from outside: the right address published, the worker ports prepared, the wanted rules in place. */
  ghost predicate Exposed(s: State, m: Network, n: Network, layout: Layout, o: Owner, ports: seq<ServicePort>,
                          cfg: Resolved, ips: seq<string>, id: nat, lb: LB, address: string)
  {
    && (if External(layout, cfg.floating) then Carries(s, id, o, address) else address == lb.address)
    && address != "" && o in s.services && address in s.services[o].ingress
    && RulesSet(m, n, cfg.pinned, o, Desired(ports, cfg.cidrs))
    && (cfg.pinned == "" ==> Isolated(n.ports, layout, ClusterSGName(o.cluster), ips, cfg.network))
  }

  /** An active balancer with just the listeners and members wanted, reachable from outside. */
  ghost predicate Provided(s: State, m: Network, n: Network, layout: Layout, o: Owner, ports: seq<ServicePort>,
                           cfg: Resolved, id: nat, address: string)
  {
    && id in s.lbs && s.lbs[id].owner == o && s.lbs[id].status == Active
    && Settled(s.lbs[id].view, GoalOf(m, ports, cfg.network))
    && Exposed(s, m, n, layout, o, ports, cfg, Workers(m, cfg.network), id, s.lbs[id], address)
  }

  ghost predicate IsProvided(s: State, m: Network, n: Network, layout: Layout, o: Owner, ports: seq<ServicePort>,
                             cfg: Resolved)
  {
    exists id, address :: Provided(s, m, n, layout, o, ports, cfg, id, address)
  }

  /**
   A Service provided, stated on the objects: its balancer is active and settled on the
   Service's ports and the workers; the published address is the floating IP on the
   balancer's port where floating IPs are to be had, else the balancer's own; its rules
   are the wanted ones, and in an operator's group those two rules shared before; and
   the worker ports found carry the cluster's group instead of the default one.
   */
  ghost predicate Running(s: State, m: Network, n: Network, layout: Layout, o: Owner, c: Config, id: nat,
                          address: string)
  {
    && o in s.services && id in s.lbs && s.lbs[id].owner == o && s.lbs[id].status == Active
    && c.network in m.subnets
    && var ips := if c.network in m.workers then m.workers[c.network] else [];
    && var ports, cidrs := s.services[o].ports, if c.cidrs == [] then ["0.0.0.0/0"] else c.cidrs;
    && BalancesJust(s.lbs[id].view, ports, ips, m.subnets[c.network])
    && address != "" && address in s.services[o].ingress
    && (if c.floating == "" && !layout.external then address == s.lbs[id].address
        else exists f :: f in s.fips && s.fips[f] == FIP(o, id, address))
    && if c.pinned != "" then
         && c.pinned in m.pinned && c.pinned in n.pinned
         && forall k :: HasKey(n.pinned[c.pinned], o, k) <==>
                        InGrid(ports, cidrs, k) || Twice(m.pinned[c.pinned], o, k)
       else
         && n.managed.Some?
         && (forall k :: HasKey(n.managed.value, o, k) <==> InGrid(ports, cidrs, k))
         && forall ip :: ip in ips && (c.network, ip) in layout.portOf ==>
                           var port := layout.portOf[(c.network, ip)];
                           && port in n.ports && CLUSTER_SG + o.cluster in n.ports[port]
                           && (layout.defaultSG.Some? ==> layout.defaultSG.value !in n.ports[port])
  }

  // ---------------------------------------------------------------- the passes

  /** The tenant's release is live, and its configuration there with usable credentials. */
  predicate Serving(s: State, t: string) {
    t in s.releases && !s.releases[t].deleting && t in s.configs && s.configs[t].creds == Usable
  }

  /** A balanced Service, not being deleted, load balancers switched on and a network for them. */
  predicate WantsService(s: State, o: Owner) {
    && o in s.services && Serving(s, o.cluster)
    && s.services[o].balanced && !s.services[o].deleting
    && s.configs[o.cluster].enabled && s.configs[o.cluster].network != ""
  }

  /** A claimed Service that has to go. */
  predicate Ending(s: State, o: Owner) {
    && o in s.services && FINALIZER in s.services[o].finalizers && Serving(s, o.cluster)
    && (s.services[o].deleting || !s.services[o].balanced
        || !s.configs[o.cluster].enabled || s.configs[o.cluster].network == "")
  }

  /** A step with a settled balancer: one change inside it, or, with nothing left to change, exposing it. */
  ghost predicate Serves(a: State, b: State, o: Owner, id: nat, g: Goal) {
    && id in a.lbs && a.lbs[id].owner == o && a.lbs[id].status == Active
    && (IsChanged(a, b, id, g) || (Settled(a.lbs[id].view, g) && Exposing(a, b, o, id)))
  }

  ghost predicate IsServed(a: State, b: State, o: Owner, g: Goal) {
    exists id :: Serves(a, b, o, id, g)
  }

  predicate OneChange(a: State, b: State, o: Owner, g: Goal) {
    exists id :: id in a.lbs && a.lbs[id].owner == o && IsChanged(a, b, id, g)
  }

  /**
   A pass over a wanted Service takes one step and never one back: it claims the
   Service, or requests its balancer, or makes one change inside that, or exposes it.
   It is done for now only when the Service is provided, and requeues only after such
   a request or change or while Octavia is at work.
   */
  ghost predicate GettingThere(a: State, b: State, m: Network, n: Network, layout: Layout, o: Owner,
                               ports: seq<ServicePort>, cfg: Resolved, r: Outcome)
  {
    var g := GoalOf(m, ports, cfg.network);
    && (|| b == a.(readings := b.readings)
        || (!Claimed(a, o) && IsClaimed(a, b, o))
        || (Claimed(a, o) && NoLB(a, o) && IsCreated(a, b, o, layout.furnished))
        || (Claimed(a, o) && IsServed(a, b, o, g)))
    && NetAside(m, n, layout, o, cfg) && (r in {Done, Requeue} ==> n == m)
    && (r == Done ==> !Claimed(a, o) && IsClaimed(a, b, o))
    && (r == Requeue ==>
          if NoLB(a, o) then IsCreated(a, b, o, layout.furnished)
          else OneChange(a, b, o, g) || (b == a.(readings := b.readings) && (Busy(a, o) || Leaving(a, o))))
    && (r == Resync ==> Claimed(a, o) && b.lbs == a.lbs && IsProvided(b, m, n, layout, o, ports, cfg))
  }

  /**
   A pass over a claimed Service that has to go: never back, onward unless Octavia is
   deleting already, and the finalizer comes off only when all is gone.
   */
  ghost predicate GettingDone(a: State, b: State, m: Network, n: Network, o: Owner, pin: string, r: Outcome) {
    && Left(b, o) <= Left(a, o) && b.released <= a.released && OnlyFewer(m, n, o, pin)
    && (AllStanding(a, o) ==> AllStanding(b, o))
    && (Claimed(a, o) && r != Fault && !Leaving(a, o) ==> Left(b, o) < Left(a, o))
    && (Claimed(a, o) && Claimed(b, o) ==> b.services[o] == a.services[o].(ingress := b.services[o].ingress))
    && (Claimed(a, o) && r == Done ==> !Claimed(b, o))
    && (Claimed(a, o) && !Claimed(b, o) ==>
          NoLB(b, o) && FreedAs(a.services[o].(ingress := []), b, o) && RulesGone(m, n, pin, o))
  }

  /**
   The finalizer comes off, if the request succeeds, and nothing else happens to the
   Service or the cloud but that its rules may go from an operator's group.
   */
  ghost predicate LettingGo(a: State, b: State, m: Network, n: Network, o: Owner, found: Resolution, r: Outcome) {
    && ((b == a.(readings := b.readings) && r != Done) || Dropped(a, b, o, false))
    && (n == m || (found.Found? && found.config.pinned != "" && OnlyFewer(m, n, o, found.config.pinned)))
  }

  predicate Nothing(a: State, b: State, m: Network, n: Network) {
    b == a.(readings := b.readings) && n == m
  }

  /**
   What an undisturbed pass does to its Service, read off the objects as they were when it
   began; `Aside` says it does nothing else.
   */
  ghost predicate PassOk(a: State, b: State, m: Network, n: Network, layout: Layout, o: Owner, r: Outcome) {
    var t, found := o.cluster, ResolveConfig(a.configs, o.cluster);
    if o !in a.services then Nothing(a, b, m, n)
    else if t !in a.configs || a.configs[t].creds == SecretMissing then
      if FINALIZER in a.services[o].finalizers then LettingGo(a, b, m, n, o, found, r) else Nothing(a, b, m, n)
    else if a.configs[t].creds == Unusable then
      Nothing(a, b, m, n) && (FINALIZER in a.services[o].finalizers || a.services[o].balanced ==> r == Fault)
    else if t !in a.releases || a.releases[t].deleting then
      if FINALIZER in a.services[o].finalizers then LettingGo(a, b, m, n, o, found, r) else Nothing(a, b, m, n)
    else if a.services[o].deleting || !a.services[o].balanced
            || !a.configs[t].enabled || a.configs[t].network == "" then
      var pin := if a.configs[t].enabled && a.configs[t].network != "" then a.configs[t].pinned else "";
      if FINALIZER in a.services[o].finalizers then GettingDone(a, b, m, n, o, pin, r) else Nothing(a, b, m, n)
    else GettingThere(a, b, m, n, layout, o, a.services[o].ports, InEffect(a.configs[t]), r)
  }

  /** What a pass over a Service means to everybody else; a tenant that is going away gets and loses nothing. */
  ghost predicate ServicePass(a: State, b: State, o: Owner) {
    && Aside(a, b, o)
    && (o.cluster !in a.releases || a.releases[o.cluster].deleting ==> b.lbs == a.lbs && b.fips == a.fips)
  }

  /** The balancer can be exposed: there is an address to publish. */
  predicate Reachable(s: State, layout: Layout, cfg: Resolved, id: nat, lb: LB) {
    if External(layout, cfg.floating) then lb.hasPort && layout.furnished && Addressed(s, id) else lb.address != ""
  }

  /** A pinned group exists. */
  predicate HasGroup(n: Network, cfg: Resolved) {
    cfg.pinned == "" || cfg.pinned in n.pinned
  }

  /** Nothing is wrong with the Service, its balancer or its configuration. */
  predicate Servable(s: State, n: Network, layout: Layout, o: Owner, ports: seq<ServicePort>, cfg: Resolved) {
    && cfg.network in n.subnets && HasGroup(n, cfg) && PortError(ports) == None && !Errored(s, o)
    && forall id :: id in s.lbs && s.lbs[id].owner == o ==> Reachable(s, layout, cfg, id, s.lbs[id])
  }

  /**
   With every request served, a pass fails only on what is wrong with the Service, its balancer or
   its configuration.
   */
  predicate FailsOnlyIf(a: State, m: Network, layout: Layout, o: Owner, r: Outcome) {
    r == Fault ==>
      || (o.cluster in a.configs && a.configs[o.cluster].creds == Unusable)
      || (WantsService(a, o) && Claimed(a, o) && !Servable(a, m, layout, o, a.services[o].ports, ConfigOf(a, o)))
      || (Ending(a, o) && (Busy(a, o) || !HasGroup(m, ConfigOf(a, o))))
  }

  /** Each of the Service's addresses is on a balancer that is not being deleted. */
  predicate AllStanding(s: State, o: Owner) {
    forall f :: f in s.fips && s.fips[f].owner == o ==> Standing(s, s.fips[f].port, o)
  }

  predicate Published(s: State, o: Owner) {
    o in s.services && s.services[o].ingress != []
  }

  /** How far the Service's balancer and address are from gone. */
  function CloudLeft(s: State, o: Owner): nat {
    (if NoLB(s, o) then 0 else if Leaving(s, o) then 1 else 2) + (if HasFIP(s, o) then 1 else 0)
  }

  /** What is left to do for a Service that has to go. */
  function Left(s: State, o: Owner): nat {
    CloudLeft(s, o) + (if Published(s, o) then 1 else 0) + (if Claimed(s, o) then 1 else 0)
  }

  /** The finalizer came off; nothing else about the Service or the cloud changed. */
  predicate Dropped(b: State, c: State, o: Owner, clean: bool) {
    && c == b.(services := c.services, released := c.released, readings := c.readings) && !Claimed(c, o)
    && c.released == (if clean then b.released - {o} else b.released + {o})
    && o in b.services && FreedAs(b.services[o], c, o)
  }

  /** The Service without the finalizer: gone if it was only waiting for that, else all the rest of it stays. */
  predicate FreedAs(svc: Service, c: State, o: Owner) {
    if svc.deleting && svc.finalizers <= {FINALIZER} then o !in c.services
    else o in c.services && c.services[o] == svc.(finalizers := svc.finalizers - {FINALIZER})
  }

  predicate Closing(a: State, b: State, c: State, o: Owner, done: bool) {
    && (b == a || (o in a.services && b == WithIngress(a, o, [])))
    && (c == b || (!Published(b, o) && Dropped(b, c, o, true)))
    && (done ==> !Published(b, o) && Dropped(b, c, o, true))
  }

  lemma ClosingProgress(a: State, b: State, c: State, o: Owner, done: bool)
    requires Closing(a, b, c, o, done) && Claimed(a, o) && NoLB(a, o)
    ensures Left(c, o) <= Left(a, o) && (done ==> Left(c, o) < Left(a, o)) && c.released <= a.released
    ensures Claimed(c, o) ==> c.services[o] == a.services[o].(ingress := c.services[o].ingress)
    ensures done ==> !Claimed(c, o)
    ensures !Claimed(c, o) ==> NoLB(c, o) && FreedAs(a.services[o].(ingress := []), c, o)
    ensures c.lbs == a.lbs && c.fips == a.fips
  {
    hide Closing, Dropped, Left, NoLB;
    Unpublishing(a, b, o, c, done);
    if c != b || done {
      DroppedLeft(b, c, o);
    }
  }

  lemma Unpublishing(a: State, b: State, o: Owner, c: State, done: bool)
    requires Closing(a, b, c, o, done)
    ensures Left(b, o) <= Left(a, o) && NoLB(b, o) == NoLB(a, o) && b.released == a.released
    ensures b.lbs == a.lbs && b.fips == a.fips
    ensures Claimed(b, o) == Claimed(a, o)
    ensures Claimed(a, o) ==> b.services[o] == a.services[o].(ingress := b.services[o].ingress)
    ensures c != b || done ==> !Published(b, o) && Dropped(b, c, o, true)
  {
  }

  lemma DroppedLeft(b: State, c: State, o: Owner)
    requires Dropped(b, c, o, true) && Claimed(b, o) && !Published(b, o)
    ensures Left(c, o) < Left(b, o) && !Claimed(c, o) && NoLB(c, o) == NoLB(b, o)
    ensures c.released <= b.released && c.lbs == b.lbs && c.fips == b.fips
    ensures b.services[o] == b.services[o].(ingress := []) && FreedAs(b.services[o], c, o)
  {
  }

  function WithoutPort(fips: map<nat, FIP>, port: nat): map<nat, FIP> {
    map f | f in fips && fips[f].port != port :: fips[f]
  }

  /** The states an undisturbed deletion goes through: the port freed, then the balancer on its way out. */
  predicate Deletion(a: State, freed: State, b: State, o: Owner, ok: bool, pending: bool) {
    || (a == freed == b && (ok ==> !pending && NoLB(a, o)))
    || exists id :: id in a.lbs && DeletionOf(a, freed, b, o, id, ok) && pending
  }

  predicate DeletionOf(a: State, freed: State, b: State, o: Owner, id: nat, ok: bool)
    requires id in a.lbs
  {
    && a.lbs[id].owner == o
    && (freed == a || freed == a.(fips := WithoutPort(a.fips, id)))
    && (b == freed || (b == SetStatus(freed, id, PendingDelete) && PortFree(freed, id)))
    && (ok ==> PortFree(b, id) && b.lbs[id].status == PendingDelete)
  }

  /** A deletion never goes back, and gets on unless Octavia is at work already. */
  lemma DeletionProgress(a: State, freed: State, b: State, o: Owner, ok: bool, pending: bool)
    requires Inv(a) && Deletion(a, freed, b, o, ok, pending)
    ensures CloudLeft(b, o) <= CloudLeft(a, o)
    ensures ok && pending && !Leaving(a, o) ==> CloudLeft(b, o) < CloudLeft(a, o)
    ensures b == a.(fips := b.fips, lbs := b.lbs) && (AllStanding(a, o) ==> AllStanding(b, o))
  {
    hide AllStanding, CloudLeft;
    if a != b || pending {
      if id :| id in a.lbs && DeletionOf(a, freed, b, o, id, ok) {
        TearingDown(a, freed, b, o, id, ok);
      }
    }
  }

  lemma TearingDown(a: State, freed: State, b: State, o: Owner, id: nat, ok: bool)
    requires Inv(a) && id in a.lbs && DeletionOf(a, freed, b, o, id, ok)
    ensures CloudLeft(b, o) <= CloudLeft(a, o)
    ensures ok && !Leaving(a, o) ==> CloudLeft(b, o) < CloudLeft(a, o)
    ensures b == a.(fips := b.fips, lbs := b.lbs) && (AllStanding(a, o) ==> AllStanding(b, o))
  {
    hide Inv, NoLB, Leaving, HasFIP, AllStanding;
    OneBalancer(a, o, id);
    if AllStanding(a, o) {
      StandingOn(a, freed, b, o, id, ok);
    }
    FewerAddresses(a, freed, o);
    BalancerLeaves(freed, b, o, id);
  }

  lemma StandingOn(a: State, freed: State, b: State, o: Owner, id: nat, ok: bool)
    requires id in a.lbs && DeletionOf(a, freed, b, o, id, ok) && AllStanding(a, o)
    requires forall x :: x in a.lbs && a.lbs[x].owner == o ==> x == id
    ensures AllStanding(b, o)
  {
    assert AllStanding(freed, o);
    if b != freed {
      forall f | f in freed.fips ensures freed.fips[f].owner != o {
        NoneOnPort(freed, o, id, f);
      }
      hide DeletionOf, PortFree, Standing;
    }
  }

  lemma NoneOnPort(s: State, o: Owner, id: nat, f: nat)
    requires AllStanding(s, o) && PortFree(s, id) && f in s.fips
    requires forall x :: x in s.lbs && s.lbs[x].owner == o ==> x == id
    ensures s.fips[f].owner != o
  {
  }

  lemma SameStanding(a: State, b: State, o: Owner)
    requires b.lbs == a.lbs && b.fips == a.fips
    ensures AllStanding(b, o) == AllStanding(a, o)
  {
  }

  lemma FewerAddresses(a: State, b: State, o: Owner)
    requires b == a || exists port: nat :: b == a.(fips := WithoutPort(a.fips, port))
    ensures (HasFIP(b, o) ==> HasFIP(a, o)) && b == a.(fips := b.fips)
    ensures Leaving(b, o) == Leaving(a, o) && NoLB(b, o) == NoLB(a, o)
  {
  }

  lemma BalancerLeaves(a: State, b: State, o: Owner, id: nat)
    requires id in a.lbs && a.lbs[id].owner == o && forall x :: x in a.lbs && a.lbs[x].owner == o ==> x == id
    requires b == a || b == SetStatus(a, id, PendingDelete)
    ensures !NoLB(b, o) && HasFIP(b, o) == HasFIP(a, o) && b == a.(lbs := b.lbs)
    ensures Leaving(b, o) <==> b.lbs[id].status == PendingDelete
    ensures Leaving(a, o) ==> b.lbs[id].status == PendingDelete
  {
  }

  // ---------------------------------------------------------------- passes in a row

  /** Octavia is done with the Service's balancer: gone if it was being deleted, else active. */
  predicate OctaviaDid(a: State, b: State, o: Owner) {
    b == a || exists id :: id in a.lbs && a.lbs[id].owner == o && OctaviaDidTo(a, b, id)
  }

  predicate OctaviaDidTo(a: State, b: State, id: nat)
    requires id in a.lbs
  {
    if a.lbs[id].status == PendingDelete then b == a.(lbs := a.lbs - {id})
    else a.lbs[id].status in {PendingCreate, PendingUpdate} && b == SetStatus(a, id, Active)
  }

  /** How many stages of providing lie ahead: the claim, and a balancer that stays. */
  function Stage(s: State, o: Owner): nat {
    (if Claimed(s, o) then 0 else 3) + (if NoLB(s, o) then 1 else if Leaving(s, o) then 2 else 0)
  }

  /** The changes left inside the Service's balancer. */
  ghost function Effort(s: State, o: Owner, g: Goal): nat {
    if NoLB(s, o) then 0
    else
      var id :| id in s.lbs && s.lbs[id].owner == o;
      Work(s.lbs[id].view, g)
  }

  function ConfigOf(s: State, o: Owner): Resolved
    requires ResolveConfig(s.configs, o.cluster).Found?
  {
    ResolveConfig(s.configs, o.cluster).config
  }

  predicate Providable(s: State, n: Network, layout: Layout, o: Owner)
    requires WantsService(s, o)
  {
    Servable(s, n, layout, o, s.services[o].ports, ConfigOf(s, o))
  }

  function GoalFor(s: State, n: Network, o: Owner): Goal
    requires WantsService(s, o)
  {
    GoalOf(n, s.services[o].ports, ConfigOf(s, o).network)
  }
}
