/**
 The finalizer protocol of loadbalancer-controller: which Octavia balancers and
 floating IPs may exist for which Services. Every request of the Service and
 cluster controllers (what a pass reads included), every user edit and every step
 of Octavia is one `Action`; `Inv` holds in every run of enabled actions, however
 they interleave. That the controllers' code only ever takes enabled actions is
 shown where the code is. A balancer's name and an address's description are the
 tag of their `owner` (one-to-one by `Tags.TagInjective`); the VIP port of balancer
 `id` is numbered `id`.
 */
module Finalizers {
  import opened Listeners
  import opened Tags
  import opened Text

  const FINALIZER := "loadbalancer.switchcloud.aenix.io/cleanup"
  const CLUSTER_FINALIZER := "loadbalancer.switchcloud.aenix.io/cluster-cleanup"

  datatype LB = LB(owner: Owner, hasPort: bool, address: string, status: Status, view: View)
  datatype FIP = FIP(owner: Owner, port: nat, address: string)
  datatype Service = Service(balanced: bool, deleting: bool, finalizers: set<string>, ingress: seq<string>,
                             ports: seq<ServicePort>)
  datatype Credentials = Usable | SecretMissing | Unusable
  datatype Config = Config(creds: Credentials, enabled: bool, network: string, pinned: string, floating: string,
                           cidrs: seq<string>)
  datatype Release = Release(deleting: bool, finalizers: set<string>)

  datatype Resolved = Resolved(enabled: bool, misconfigured: bool, network: string, pinned: string, floating: string,
                               cidrs: seq<string>)
  datatype Resolution = Found(config: Resolved) | NotFound | Broken

  /** What a pass over one Service has read so far: the Service, then the configuration, then the release. */
  datatype Reading = Reading(owner: Owner, svc: Service, config: Option<Resolution>, live: Option<bool>)

  /**
   The last six fields are history. `owners`: who every balancer that ever was
   belongs to. `released`: owners whose finalizer was last dropped without cleanup.
   `condemned`: tenants whose release was ever marked for deletion; `recreated`:
   those of them that got a release again. `late`: addresses that were allocated for
   a tenant already condemned. `readings`: what the pass under way of a tenant's
   worker, or else its last one, has read.
   */
  datatype State = State(
    lbs: map<nat, LB>, fips: map<nat, FIP>, nextId: nat,
    services: map<Owner, Service>, configs: map<string, Config>, releases: map<string, Release>,
    owners: map<nat, Owner>, released: set<Owner>, condemned: set<string>, recreated: set<string>,
    late: set<nat>, readings: map<string, Reading>)

  predicate Claimed(s: State, o: Owner) {
    o in s.services && FINALIZER in s.services[o].finalizers
  }

  predicate DistinctPorts(ps: seq<ServicePort>) {
    forall i, j :: 0 <= i < j < |ps| ==> (ps[i].port, ps[i].protocol) != (ps[j].port, ps[j].protocol)
  }

  /** A missing credentials Secret is reported just like a missing configuration object. */
  function ResolveConfig(configs: map<string, Config>, t: string): Resolution {
    if t !in configs || configs[t].creds == SecretMissing then NotFound
    else
      var c := configs[t];
      if c.creds == Unusable then Broken
      else if !c.enabled then Found(Resolved(false, false, "", "", "", []))
      else if c.network == "" then Found(Resolved(false, true, "", "", "", []))
      else Found(InEffect(c))
  }

  /** Load balancers are switched on, and there is a network for them. */
  function InEffect(c: Config): Resolved {
    Resolved(true, false, c.network, c.pinned, c.floating, if c.cidrs == [] then ["0.0.0.0/0"] else c.cidrs)
  }

  /** What is read of a tenant's configuration, input by input. */
  lemma ConfigByInput(configs: map<string, Config>, t: string)
    ensures ResolveConfig(configs, t) == NotFound <==> (t in configs ==> configs[t].creds == SecretMissing)
    ensures ResolveConfig(configs, t) == Broken <==> t in configs && configs[t].creds == Unusable
    ensures ResolveConfig(configs, t).Found? <==> t in configs && configs[t].creds == Usable
    ensures t in configs && configs[t].creds == Usable ==>
              var c, read := configs[t], ResolveConfig(configs, t).config;
              && (read.enabled <==> c.enabled && c.network != "")
              && (read.misconfigured <==> c.enabled && c.network == "")
              && (read.enabled ==> read.network == c.network && read.pinned == c.pinned && read.floating == c.floating)
              && (read.enabled ==> read.cidrs != [] && (c.cidrs != [] ==> read.cidrs == c.cidrs))
              && (read.enabled && c.cidrs == [] ==> read.cidrs == ["0.0.0.0/0"])
              && (!read.enabled ==> read.pinned == "" && read.network == "")
  {
  }

  /** A release that is missing counts as terminating. */
  predicate Terminating(s: State, t: string) {
    t !in s.releases || s.releases[t].deleting
  }

  // ---------------------------------------------------------------- what a pass goes by

  /** Whether the pass under way, or the last one, of the tenant's worker is over this Service. */
  predicate Minds(s: State, o: Owner) {
    o.cluster in s.readings && s.readings[o.cluster].owner == o
  }

  /** Configuration and release were both read, and allow the pass to act. */
  predicate ReadLive(m: Reading) {
    m.live == Some(true) && m.config.Some? && m.config.value.Found?
  }

  predicate Unwanted(svc: Service, cfg: Resolved) {
    svc.deleting || !svc.balanced || !cfg.enabled
  }

  /** The pass saw a wanted Service under a live release. */
  predicate Providing(s: State, o: Owner) {
    Minds(s, o) && ReadLive(s.readings[o.cluster])
        && !Unwanted(s.readings[o.cluster].svc, s.readings[o.cluster].config.value.config)
  }

  /** The tenant's worker saw a Service that has to go, under a live release. */
  predicate Trusting(s: State, t: string) {
    t in s.readings && ReadLive(s.readings[t]) && Unwanted(s.readings[t].svc, s.readings[t].config.value.config)
  }

  predicate Cleaning(s: State, o: Owner) {
    Minds(s, o) && Trusting(s, o.cluster)
  }

  /** The pass found no configuration, or the release terminating. */
  predicate Dismissed(s: State, o: Owner) {
    Minds(s, o) && (s.readings[o.cluster].config == Some(NotFound) || s.readings[o.cluster].live == Some(false))
  }

  // ---------------------------------------------------------------- actions

  datatype Action =
    // users, and other controllers writing the same objects
    | EditService(o: Owner, svc: Service) | DeleteService(o: Owner)
    | SetConfig(t: string, config: Option<Config>)
    | EditRelease(t: string, release: Release) | DeleteRelease(t: string)
    // Octavia
    | Settle(id: nat, status: Status) | Vanish(id: nat)
    // the worker of a tenant: reading
    | ReadService(o: Owner) | ReadConfig(t: string) | ReadRelease(t: string)
    // and writing
    | AddFinalizer(o: Owner, seen: set<string>) | DropFinalizer(o: Owner, seen: set<string>, clean: bool)
    | CreateLB(o: Owner, hasPort: bool, address: string) | ChangeLB(o: Owner, id: nat, view: View)
    | DeleteLB(o: Owner, id: nat) | CreateFIP(o: Owner, port: nat, address: string) | DeleteFIP(o: Owner, id: nat)
    | SetIngress(o: Owner, ingress: seq<string>)
    // the cluster controller
    | AddClusterFinalizer(t: string, seen: set<string>) | DropClusterFinalizer(t: string, seen: set<string>)
    | SweepLB(t: string, id: nat) | SweepFIP(t: string, id: nat)

  /** Actions only the worker of tenant `t` takes. */
  predicate OfWorker(a: Action, t: string) {
    match a
    case ReadService(o) => o.cluster == t
    case ReadConfig(u) => u == t
    case ReadRelease(u) => u == t
    case AddFinalizer(o, _) => o.cluster == t
    case DropFinalizer(o, _, _) => o.cluster == t
    case CreateLB(o, _, _) => o.cluster == t
    case ChangeLB(o, _, _) => o.cluster == t
    case DeleteLB(o, _) => o.cluster == t
    case CreateFIP(o, _, _) => o.cluster == t
    case DeleteFIP(o, _) => o.cluster == t
    case SetIngress(o, _) => o.cluster == t
    case _ => false
  }

  datatype Cloud = Cloud(lbs: map<nat, LB>, fips: map<nat, FIP>)

  /** The balancers and addresses of all tenants but one. */
  function Elsewhere(s: State, t: string): Cloud {
    Cloud(map id | id in s.lbs && s.lbs[id].owner.cluster != t :: s.lbs[id],
          map f | f in s.fips && s.fips[f].owner.cluster != t :: s.fips[f])
  }

  predicate PortFree(s: State, port: nat) {
    forall f :: f in s.fips ==> s.fips[f].port != port
  }

  predicate NoLB(s: State, o: Owner) {
    forall id :: id in s.lbs ==> s.lbs[id].owner != o
  }

  predicate HasFIP(s: State, o: Owner) {
    exists f :: f in s.fips && s.fips[f].owner == o
  }

  /** A balancer of this Service, there or gone by now. */
  predicate Known(s: State, id: nat, o: Owner) {
    id in s.owners && s.owners[id] == o
  }

  /** The balancer an address may be bound to: there, the owner's, and not on its way out. */
  predicate Standing(s: State, port: nat, o: Owner) {
    port in s.lbs && s.lbs[port].owner == o && s.lbs[port].hasPort && s.lbs[port].status != PendingDelete
  }

  predicate BoundAside(s: State, port: nat, o: Owner) {
    Known(s, port, o) && (port in s.lbs ==> s.lbs[port].hasPort)
  }

  /**
   An address that may outlive its balancer: allocated after the marking, and no pass
   relies on its being gone, or the release came back.
   */
  predicate MayStrand(s: State, t: string, f: nat) {
    f in s.late && (t in s.recreated || !Trusting(s, t))
  }

  predicate OnServices(a: Action) {
    a.EditService? || a.DeleteService? || a.AddFinalizer? || a.DropFinalizer? || a.SetIngress?
  }

  predicate OnReleases(a: Action) {
    a.EditRelease? || a.DeleteRelease? || a.AddClusterFinalizer? || a.DropClusterFinalizer? || a.SetConfig?
  }

  predicate OnReads(a: Action) {
    a.ReadService? || a.ReadConfig? || a.ReadRelease?
  }

  predicate OnCloud(a: Action) {
    !OnServices(a) && !OnReleases(a) && !OnReads(a)
  }

  predicate MayOnServices(s: State, a: Action)
    requires OnServices(a)
  {
    match a
    case EditService(o, svc) =>
      && o.Wf() && DistinctPorts(svc.ports)
      && if o in s.services then
           && svc.deleting == s.services[o].deleting && svc.ingress == s.services[o].ingress
           && (FINALIZER in svc.finalizers <==> Claimed(s, o))
           && (svc.deleting ==> svc.finalizers <= s.services[o].finalizers)
         else !svc.deleting && svc.ingress == [] && FINALIZER !in svc.finalizers
    case DeleteService(o) => o in s.services
    case AddFinalizer(o, _) => o in s.services && !s.services[o].deleting && Providing(s, o)
    case DropFinalizer(o, seen, clean) =>
      && o in s.services && (s.services[o].deleting ==> seen - {FINALIZER} <= s.services[o].finalizers)
      && if clean then Cleaning(s, o) && NoLB(s, o) else Dismissed(s, o)
    case SetIngress(o, ingress) => o in s.services && if ingress == [] then Cleaning(s, o) else Providing(s, o)
  }

  predicate MayOnReleases(s: State, a: Action)
    requires OnReleases(a)
  {
    match a
    case SetConfig(_, _) => true
    case EditRelease(t, r) =>
      if t in s.releases then
        && r.deleting == s.releases[t].deleting
        && (CLUSTER_FINALIZER in r.finalizers <==> CLUSTER_FINALIZER in s.releases[t].finalizers)
        && (r.deleting ==> r.finalizers <= s.releases[t].finalizers)
      else !r.deleting && CLUSTER_FINALIZER !in r.finalizers
    case DeleteRelease(t) => t in s.releases
    case AddClusterFinalizer(t, _) => t in s.releases && !s.releases[t].deleting
    case DropClusterFinalizer(t, seen) =>
      t in s.releases && s.releases[t].deleting && seen - {CLUSTER_FINALIZER} <= s.releases[t].finalizers
  }

  /** The order of the reads of a pass; the release is looked at only with a configuration at hand. */
  predicate MayOnReads(s: State, a: Action)
    requires OnReads(a)
  {
    match a
    case ReadService(o) => o in s.services
    case ReadConfig(t) => t in s.readings && s.readings[t].config == None && s.readings[t].live == None
    case ReadRelease(t) =>
      t in s.readings && s.readings[t].config.Some? && s.readings[t].config.value.Found? && s.readings[t].live == None
  }

  predicate MayOnCloud(s: State, a: Action)
    requires OnCloud(a)
  {
    match a
    case Settle(id, status) =>
      && id in s.lbs
      && (|| (s.lbs[id].status in {PendingCreate, PendingUpdate} && status in {Active, Error})
          || (s.lbs[id].status == Active && status in {PendingUpdate, Error})
          || (s.lbs[id].status == PendingDelete && status == Error))
    case Vanish(id) => id in s.lbs && s.lbs[id].status == PendingDelete
    case CreateLB(o, _, _) => o.Wf() && Providing(s, o) && Claimed(s, o) && NoLB(s, o)
    case ChangeLB(o, id, view) =>
      Providing(s, o) && id in s.lbs && s.lbs[id].owner == o && s.lbs[id].status == Active && ValidView(view)
    case DeleteLB(o, id) =>
      && Cleaning(s, o) && id in s.lbs && s.lbs[id].owner == o && s.lbs[id].status in {Active, Error}
      && PortFree(s, id)
    case CreateFIP(o, port, _) =>
      && Providing(s, o) && Claimed(s, o) && PortFree(s, port) && BoundAside(s, port, o)
      && (Standing(s, port, o) || o.cluster in s.condemned)
    case DeleteFIP(o, id) => Cleaning(s, o) && id in s.fips && s.fips[id].owner == o
    case SweepLB(t, id) =>
      && t in s.condemned && id in s.lbs && s.lbs[id].owner.cluster == t && s.lbs[id].status in {Active, Error}
      && Clear(s, t, id)
    case SweepFIP(t, id) => t in s.condemned && id in s.fips && s.fips[id].owner.cluster == t
  }

  /** The sweep freed the port; whatever address is there was bound since. */
  predicate Clear(s: State, t: string, id: nat) {
    forall f :: f in s.fips && s.fips[f].port == id ==> MayStrand(s, t, f)
  }

  predicate Enabled(s: State, a: Action) {
    if OnServices(a) then MayOnServices(s, a) else if OnReleases(a) then MayOnReleases(s, a)
    else if OnReads(a) then MayOnReads(s, a) else MayOnCloud(s, a)
  }

  /** An object marked for deletion goes when its last finalizer does. */
  function PutService(s: State, o: Owner, svc: Service): (s': State)
    ensures s' == s.(services := s'.services)
    ensures forall p :: p != o ==> (p in s'.services <==> p in s.services)
                                   && (p in s.services ==> s'.services[p] == s.services[p])
    ensures FINALIZER in svc.finalizers ==> Claimed(s', o)
  {
    if svc.deleting && svc.finalizers == {} then s.(services := s.services - {o})
    else s.(services := s.services[o := svc])
  }

  function PutRelease(s: State, t: string, r: Release): (s': State)
    ensures s' == s.(releases := s'.releases, condemned := s'.condemned) && s.condemned <= s'.condemned
    ensures s'.condemned <= s.condemned + {t} && (r.deleting ==> t in s'.condemned)
    ensures t in s'.condemned ==> t in s.condemned || r.deleting
    ensures t in s'.releases ==> s'.releases[t] == r
    ensures forall u :: u != t ==> (u in s'.releases <==> u in s.releases)
                                   && (u in s.releases ==> s'.releases[u] == s.releases[u])
  {
    var s' := if r.deleting then s.(condemned := s.condemned + {t}) else s;
    if r.deleting && r.finalizers == {} then s'.(releases := s.releases - {t}) else s'.(releases := s.releases[t := r])
  }

  function SetStatus(s: State, id: nat, status: Status): State
    requires id in s.lbs
  {
    s.(lbs := s.lbs[id := s.lbs[id].(status := status)])
  }

  function OnServicesNext(s: State, a: Action): State
    requires OnServices(a) && MayOnServices(s, a)
  {
    match a
    case EditService(o, svc) => PutService(s, o, svc)
    case DeleteService(o) => PutService(s, o, s.services[o].(deleting := true))
    case AddFinalizer(o, seen) => PutService(s, o, s.services[o].(finalizers := seen + {FINALIZER}))
    case DropFinalizer(o, seen, clean) =>
      PutService(s, o, s.services[o].(finalizers := seen - {FINALIZER})).(
        released := if clean then s.released - {o} else s.released + {o})
    case SetIngress(o, ingress) => s.(services := s.services[o := s.services[o].(ingress := ingress)])
  }

  function OnReleasesNext(s: State, a: Action): (s': State)
    requires OnReleases(a) && MayOnReleases(s, a)
    ensures s' == s.(configs := s'.configs, releases := s'.releases, condemned := s'.condemned,
              recreated := s'.recreated)
    ensures s.condemned <= s'.condemned && s.recreated <= s'.recreated
    ensures forall t :: t in s'.recreated && t !in s.recreated ==>
                          a.EditRelease? && a.t == t && t in s.condemned && t !in s.releases
  {
    match a
    case SetConfig(t, None) => s.(configs := s.configs - {t})
    case SetConfig(t, Some(c)) => s.(configs := s.configs[t := c])
    case EditRelease(t, r) =>
      PutRelease(s, t, r).(
        recreated := if t !in s.releases && t in s.condemned then s.recreated + {t} else s.recreated)
    case DeleteRelease(t) => PutRelease(s, t, s.releases[t].(deleting := true))
    case AddClusterFinalizer(t, seen) => PutRelease(s, t, s.releases[t].(finalizers := seen + {CLUSTER_FINALIZER}))
    case DropClusterFinalizer(t, seen) => PutRelease(s, t, s.releases[t].(finalizers := seen - {CLUSTER_FINALIZER}))
  }

  function OnReadsNext(s: State, a: Action): State
    requires OnReads(a) && MayOnReads(s, a)
  {
    match a
    case ReadService(o) => s.(readings := s.readings[o.cluster := Reading(o, s.services[o], None, None)])
    case ReadConfig(t) =>
      s.(readings := s.readings[t := s.readings[t].(config := Some(ResolveConfig(s.configs, t)))])
    case ReadRelease(t) => s.(readings := s.readings[t := s.readings[t].(live := Some(!Terminating(s, t)))])
  }

  function OnCloudNext(s: State, a: Action): State
    requires OnCloud(a) && MayOnCloud(s, a)
  {
    match a
    case Settle(id, status) => SetStatus(s, id, status)
    case Vanish(id) => s.(lbs := s.lbs - {id})
    case CreateLB(o, hasPort, address) =>
      s.(lbs := s.lbs[s.nextId := LB(o, hasPort, address, PendingCreate, View([], [], 0))],
         owners := s.owners[s.nextId := o], nextId := s.nextId + 1)
    case ChangeLB(_, id, view) => s.(lbs := s.lbs[id := s.lbs[id].(view := view, status := PendingUpdate)])
    case DeleteLB(_, id) => SetStatus(s, id, PendingDelete)
    case CreateFIP(o, port, address) =>
      s.(fips := s.fips[s.nextId := FIP(o, port, address)], nextId := s.nextId + 1,
         late := if o.cluster in s.condemned then s.late + {s.nextId} else s.late)
    case DeleteFIP(_, id) => s.(fips := s.fips - {id})
    case SweepLB(_, id) => SetStatus(s, id, PendingDelete)
    case SweepFIP(_, id) => s.(fips := s.fips - {id})
  }

  function Apply(s: State, a: Action): State
    requires Enabled(s, a)
  {
    if OnServices(a) then OnServicesNext(s, a) else if OnReleases(a) then OnReleasesNext(s, a)
    else if OnReads(a) then OnReadsNext(s, a) else OnCloudNext(s, a)
  }

  // ---------------------------------------------------------------- invariants

  /** A balancer exists only for a Service that carries the finalizer, or was released. */
  ghost predicate LBOk(s: State, id: nat)
    requires id in s.lbs
  {
    var lb := s.lbs[id];
    && Known(s, id, lb.owner) && lb.owner.Wf() && ValidView(lb.view)
    && (Claimed(s, lb.owner) || lb.owner in s.released)
  }

  /** An address exists only on a standing balancer of the same Service, teardowns aside. */
  ghost predicate FIPOk(s: State, f: nat)
    requires f in s.fips
  {
    var fip := s.fips[f];
    && f < s.nextId && BoundAside(s, fip.port, fip.owner)
    && (f in s.late ==> fip.owner.cluster in s.condemned)
    && (|| Claimed(s, fip.owner) || fip.owner in s.released
        || (f in s.late && fip.owner.cluster in s.recreated))
    && (Standing(s, fip.port, fip.owner) || MayStrand(s, fip.owner.cluster, f))
  }

  /** A marked release stays so until it is gone, unless one of the same name is created again. */
  predicate ReleaseOk(s: State, t: string) {
    && (t in s.releases && s.releases[t].deleting ==> t in s.condemned)
    && (t in s.condemned && t !in s.recreated ==> Terminating(s, t))
  }

  ghost predicate Inv(s: State) {
    && (forall id :: id in s.owners ==> id < s.nextId) && (forall f :: f in s.late ==> f < s.nextId)
    && (forall id :: id in s.lbs ==> LBOk(s, id))
    && (forall a, b :: a in s.lbs && b in s.lbs && s.lbs[a].owner == s.lbs[b].owner ==> a == b)
    && (forall f :: f in s.fips ==> FIPOk(s, f))
    && (forall f, g :: f in s.fips && g in s.fips && s.fips[f].port == s.fips[g].port ==> f == g)
    && (forall o :: o in s.services ==> o.Wf() && DistinctPorts(s.services[o].ports))
    && (forall t :: ReleaseOk(s, t))
  }

  lemma FrameServices(s: State, a: Action)
    requires Enabled(s, a) && OnServices(a)
    ensures var s' := Apply(s, a); s' == s.(services := s'.services, released := s'.released)
  {
  }

  lemma FrameReleases(s: State, a: Action)
    requires Enabled(s, a) && OnReleases(a)
    ensures var s' := Apply(s, a);
            && s' == s.(configs := s'.configs, releases := s'.releases, condemned := s'.condemned,
                  recreated := s'.recreated)
            && s.condemned <= s'.condemned && s.recreated <= s'.recreated
  {
  }

  lemma FrameReads(s: State, a: Action)
    requires Enabled(s, a) && OnReads(a)
    ensures var s' := Apply(s, a); s' == s.(readings := s'.readings)
  {
  }

  lemma FrameCloud(s: State, a: Action)
    requires Enabled(s, a) && OnCloud(a)
    ensures var s' := Apply(s, a);
            && s' == s.(lbs := s'.lbs, fips := s'.fips, nextId := s'.nextId, owners := s'.owners, late := s'.late)
            && s.nextId <= s'.nextId && s.late <= s'.late
  {
  }

  /** Nobody but the worker's own clean drop takes a claim away without a trace. */
  lemma ClaimsKept(s: State, a: Action, o: Owner)
    requires Enabled(s, a) && (Claimed(s, o) || o in s.released)
    ensures Claimed(Apply(s, a), o) || o in Apply(s, a).released || (a.DropFinalizer? && a.o == o && a.clean)
  {
    if OnServices(a) {
      ClaimsKeptByServices(s, a, o);
    } else if OnReleases(a) {
      FrameReleases(s, a);
    } else if OnReads(a) {
      FrameReads(s, a);
    } else {
      FrameCloud(s, a);
    }
  }

  lemma ClaimsKeptByServices(s: State, a: Action, o: Owner)
    requires OnServices(a) && MayOnServices(s, a) && (Claimed(s, o) || o in s.released)
    ensures var s' := OnServicesNext(s, a);
            Claimed(s', o) || o in s'.released || (a.DropFinalizer? && a.o == o && a.clean)
  {
  }

  lemma LBsKept(s: State, a: Action, id: nat)
    requires Enabled(s, a) && id in Apply(s, a).lbs && (id in s.lbs ==> LBOk(s, id))
    requires forall x :: x in s.owners ==> x < s.nextId
    ensures LBOk(Apply(s, a), id)
  {
    if OnServices(a) {
      FrameServices(s, a);
    } else if OnReleases(a) {
      FrameReleases(s, a);
    } else if OnReads(a) {
      FrameReads(s, a);
    } else {
      FrameCloud(s, a);
      BalancersKept(s, a, id);
    }
    if id in s.lbs {
      ClaimsKept(s, a, s.lbs[id].owner);
    }
  }

  /** Balancers keep their owner and a well-formed view, and each new one has a new id. */
  lemma BalancersKept(s: State, a: Action, id: nat)
    requires Enabled(s, a) && OnCloud(a) && id in Apply(s, a).lbs
    requires id in s.lbs ==> id < s.nextId && id in s.owners && ValidView(s.lbs[id].view)
    ensures var s' := Apply(s, a);
            && (id in s.lbs ==>
                  s'.lbs[id].owner == s.lbs[id].owner && s'.owners[id] == s.owners[id] && ValidView(s'.lbs[id].view))
            && (id !in s.lbs ==>
                  && a.CreateLB? && id == s.nextId < s'.nextId && s'.lbs[id].owner == a.o
                  && Known(s', id, a.o) && ValidView(s'.lbs[id].view))
  {
  }

  lemma FIPsKept(s: State, a: Action, f: nat)
    requires Enabled(s, a) && f in Apply(s, a).fips
    requires f in s.fips ==> FIPOk(s, f) && ReleaseOk(s, s.fips[f].owner.cluster)
    requires (forall x :: x in s.owners ==> x < s.nextId) && s.nextId !in s.late
    ensures FIPOk(Apply(s, a), f)
  {
    if OnServices(a) {
      FrameServices(s, a);
      KeptByServices(s, a, f);
    } else if OnReleases(a) {
      FrameReleases(s, a);
    } else if OnReads(a) {
      FrameReads(s, a);
      KeptByReads(s, a, f);
    } else {
      AddressesKept(s, a, f);
    }
  }

  lemma KeptByServices(s: State, a: Action, f: nat)
    requires Enabled(s, a) && OnServices(a) && f in s.fips && FIPOk(s, f)
    ensures f in Apply(s, a).fips && FIPOk(Apply(s, a), f)
  {
    FrameServices(s, a);
    OwnerKept(s, a, f, s.fips[f].owner);
    SameCloud(s, Apply(s, a), f);
  }

  lemma OwnerKept(s: State, a: Action, f: nat, o: Owner)
    requires Enabled(s, a) && OnServices(a) && f in s.fips && FIPOk(s, f) && s.fips[f].owner == o
    ensures Claimed(Apply(s, a), o) || o in Apply(s, a).released || (f in s.late && o.cluster in s.recreated)
  {
  }

  lemma SameCloud(s: State, s': State, f: nat)
    requires s' == s.(services := s'.services, released := s'.released) && f in s.fips && FIPOk(s, f)
    requires var o := s.fips[f].owner; Claimed(s', o) || o in s'.released || (f in s.late && o.cluster in s.recreated)
    ensures FIPOk(s', f)
  {
  }

  /** A pass that sees a release alive under an unmarked tenant finds every address on a standing balancer. */
  lemma KeptByReads(s: State, a: Action, f: nat)
    requires OnReads(a) && MayOnReads(s, a) && f in s.fips && FIPOk(s, f) && ReleaseOk(s, s.fips[f].owner.cluster)
    ensures f in OnReadsNext(s, a).fips && FIPOk(OnReadsNext(s, a), f)
  {
  }

  lemma AddressesKept(s: State, a: Action, f: nat)
    requires OnCloud(a) && MayOnCloud(s, a) && f in OnCloudNext(s, a).fips && (f in s.fips ==> FIPOk(s, f))
    requires (forall x :: x in s.owners ==> x < s.nextId) && s.nextId !in s.late
    ensures FIPOk(OnCloudNext(s, a), f)
  {
  }

  lemma OwnersUnique(s: State, a: Action, x: nat, y: nat)
    requires Enabled(s, a) && x in Apply(s, a).lbs && y in Apply(s, a).lbs
    requires Apply(s, a).lbs[x].owner == Apply(s, a).lbs[y].owner
    requires forall id :: id in s.lbs ==> id < s.nextId && id in s.owners && ValidView(s.lbs[id].view)
    requires x in s.lbs && y in s.lbs && s.lbs[x].owner == s.lbs[y].owner ==> x == y
    ensures x == y
  {
    if OnServices(a) {
      FrameServices(s, a);
    } else if OnReleases(a) {
      FrameReleases(s, a);
    } else if OnReads(a) {
      FrameReads(s, a);
    } else {
      BalancersKept(s, a, x);
      BalancersKept(s, a, y);
    }
  }

  lemma PortsUnique(s: State, a: Action, f: nat, g: nat)
    requires Enabled(s, a) && f in Apply(s, a).fips && g in Apply(s, a).fips
    requires Apply(s, a).fips[f].port == Apply(s, a).fips[g].port
    requires f in s.fips && g in s.fips && s.fips[f].port == s.fips[g].port ==> f == g
    ensures f == g
  {
    if OnServices(a) {
      FrameServices(s, a);
    } else if OnReleases(a) {
      FrameReleases(s, a);
    } else if OnReads(a) {
      FrameReads(s, a);
    } else {
      PortsUniqueInCloud(s, a, f, g);
    }
  }

  lemma PortsUniqueInCloud(s: State, a: Action, f: nat, g: nat)
    requires OnCloud(a) && MayOnCloud(s, a) && f in OnCloudNext(s, a).fips && g in OnCloudNext(s, a).fips
    requires OnCloudNext(s, a).fips[f].port == OnCloudNext(s, a).fips[g].port
    requires f in s.fips && g in s.fips && s.fips[f].port == s.fips[g].port ==> f == g
    ensures f == g
  {
  }

  lemma ObjectsKept(s: State, a: Action)
    requires Enabled(s, a)
    requires forall o :: o in s.services ==> o.Wf() && DistinctPorts(s.services[o].ports)
    ensures forall o :: o in Apply(s, a).services ==> o.Wf() && DistinctPorts(Apply(s, a).services[o].ports)
  {
    if OnServices(a) {
      ServicesKept(s, a);
    } else if OnReleases(a) {
      FrameReleases(s, a);
    } else if OnReads(a) {
      FrameReads(s, a);
    } else {
      FrameCloud(s, a);
    }
  }

  lemma ServicesKept(s: State, a: Action)
    requires OnServices(a) && MayOnServices(s, a)
    requires forall o :: o in s.services ==> o.Wf() && DistinctPorts(s.services[o].ports)
    ensures var s' := OnServicesNext(s, a);
            forall o :: o in s'.services ==> o.Wf() && DistinctPorts(s'.services[o].ports)
  {
    var s' := OnServicesNext(s, a);
    forall o | o in s'.services ensures o.Wf() && DistinctPorts(s'.services[o].ports) {
      ServiceKept(s, a, o);
    }
  }

  lemma ServiceKept(s: State, a: Action, o: Owner)
    requires OnServices(a) && MayOnServices(s, a) && o in OnServicesNext(s, a).services
    requires o in s.services ==> o.Wf() && DistinctPorts(s.services[o].ports)
    ensures o.Wf() && DistinctPorts(OnServicesNext(s, a).services[o].ports)
  {
  }

  lemma ReleasesKept(s: State, a: Action, t: string)
    requires Enabled(s, a) && ReleaseOk(s, t)
    ensures ReleaseOk(Apply(s, a), t)
  {
    if OnServices(a) {
      FrameServices(s, a);
    } else if OnReleases(a) {
      MarksKept(s, a, t);
    } else if OnReads(a) {
      FrameReads(s, a);
    } else {
      FrameCloud(s, a);
    }
  }

  lemma MarksKept(s: State, a: Action, t: string)
    requires OnReleases(a) && MayOnReleases(s, a) && ReleaseOk(s, t)
    ensures ReleaseOk(OnReleasesNext(s, a), t)
  {
  }

  lemma OwnersKept(s: State, a: Action)
    requires Enabled(s, a) && forall x :: x in s.owners ==> x < s.nextId
    ensures forall x :: x in Apply(s, a).owners ==> x < Apply(s, a).nextId
    ensures forall x :: x in s.owners ==> x in Apply(s, a).owners && Apply(s, a).owners[x] == s.owners[x]
  {
    if OnServices(a) {
      FrameServices(s, a);
    } else if OnReleases(a) {
      FrameReleases(s, a);
    } else if OnReads(a) {
      FrameReads(s, a);
    }
  }

  lemma BalancersStayOk(s: State, a: Action)
    requires Inv(s) && Enabled(s, a)
    ensures var s' := Apply(s, a);
            && (forall id :: id in s'.lbs ==> LBOk(s', id))
            && (forall x, y :: x in s'.lbs && y in s'.lbs && s'.lbs[x].owner == s'.lbs[y].owner ==> x == y)
  {
    var s' := Apply(s, a);
    forall id | id in s.lbs ensures id < s.nextId && id in s.owners && ValidView(s.lbs[id].view) {
      assert LBOk(s, id);
    }
    forall id | id in s'.lbs ensures LBOk(s', id) {
      assert id in s.lbs ==> LBOk(s, id);
      LBsKept(s, a, id);
    }
    forall x, y | x in s'.lbs && y in s'.lbs && s'.lbs[x].owner == s'.lbs[y].owner ensures x == y {
      OwnersUnique(s, a, x, y);
    }
  }

  lemma AddressesStayOk(s: State, a: Action)
    requires Inv(s) && Enabled(s, a)
    ensures var s' := Apply(s, a);
            && (forall f :: f in s'.fips ==> FIPOk(s', f))
            && (forall f, g :: f in s'.fips && g in s'.fips && s'.fips[f].port == s'.fips[g].port ==> f == g)
  {
    var s' := Apply(s, a);
    forall f | f in s'.fips ensures FIPOk(s', f) {
      assert f in s.fips ==> FIPOk(s, f) && ReleaseOk(s, s.fips[f].owner.cluster);
      FIPsKept(s, a, f);
    }
    forall f, g | f in s'.fips && g in s'.fips && s'.fips[f].port == s'.fips[g].port ensures f == g {
      PortsUnique(s, a, f, g);
    }
  }

  lemma LateKept(s: State, a: Action)
    requires Enabled(s, a) && forall f :: f in s.late ==> f < s.nextId
    ensures forall f :: f in Apply(s, a).late ==> f < Apply(s, a).nextId
  {
    if OnServices(a) {
      FrameServices(s, a);
    } else if OnReleases(a) {
      FrameReleases(s, a);
    } else if OnReads(a) {
      FrameReads(s, a);
    }
  }

  lemma StepKeepsInv(s: State, a: Action)
    requires Inv(s) && Enabled(s, a)
    ensures Inv(Apply(s, a))
  {
    BalancersStayOk(s, a);
    AddressesStayOk(s, a);
    ObjectsKept(s, a);
    OwnersKept(s, a);
    LateKept(s, a);
    forall t ensures ReleaseOk(Apply(s, a), t) {
      assert ReleaseOk(s, t);
      ReleasesKept(s, a, t);
    }
  }

  // ---------------------------------------------------------------- every run

  ghost predicate Legal(s: State, log: seq<Action>)
    decreases |log|, 0
  {
    log == [] || (Legal(s, log[..|log| - 1]) && Enabled(After(s, log[..|log| - 1]), log[|log| - 1]))
  }

  ghost function After(s: State, log: seq<Action>): State
    requires Legal(s, log)
    decreases |log|, 1
  {
    if log == [] then s else Apply(After(s, log[..|log| - 1]), log[|log| - 1])
  }

  lemma LegalSnoc(s: State, log: seq<Action>, a: Action)
    requires Legal(s, log) && Enabled(After(s, log), a)
    ensures Legal(s, log + [a]) && After(s, log + [a]) == Apply(After(s, log), a)
  {
  }

  lemma {:induction false} RunKeepsInv(s: State, log: seq<Action>)
    requires Inv(s) && Legal(s, log)
    ensures Inv(After(s, log))
    decreases |log|
  {
    if log != [] {
      RunKeepsInv(s, log[..|log| - 1]);
      StepKeepsInv(After(s, log[..|log| - 1]), log[|log| - 1]);
    }
  }

  ghost predicate Fresh(s: State) {
    && s.lbs == map[] && s.fips == map[] && s.owners == map[] && s.readings == map[]
    && s.released == {} && s.condemned == {} && s.recreated == {} && s.late == {}
    && (forall o :: o in s.services ==> o.Wf() && DistinctPorts(s.services[o].ports))
    && (forall t :: t in s.releases ==> !s.releases[t].deleting)
  }

  /** At every point of a legal run some state was reached. */
  lemma {:induction false} LegalPrefix(s: State, log: seq<Action>, n: nat)
    requires Legal(s, log) && n <= |log|
    ensures Legal(s, log[..n])
    decreases |log|
  {
    if n == |log| {
      assert log[..n] == log;
    } else {
      LegalPrefix(s, log[..|log| - 1], n);
      assert log[..|log| - 1][..n] == log[..n];
    }
  }

  /** What the action at `n` found. */
  ghost function Before(s: State, log: seq<Action>, n: nat): State
    requires Legal(s, log) && n <= |log|
  {
    LegalPrefix(s, log, n);
    After(s, log[..n])
  }

  /**
   The actions `k < m < n` are of one pass over `o`: it read the Service at `k`; at
   `m` it found no configuration, or the release terminating; and at `n` it dropped
   the finalizer without cleanup. No pass has completed a cleanup of `o` since.
   */
  ghost predicate Abandons(s: State, log: seq<Action>, o: Owner, k: nat, m: nat, n: nat)
    requires Legal(s, log) && n < |log|
  {
    && k < m < n && log[k] == ReadService(o) && log[n].DropFinalizer? && log[n].o == o && !log[n].clean
    && (forall i :: k < i < n ==> !(log[i].ReadService? && log[i].o.cluster == o.cluster))
    && (forall i :: n < i < |log| ==> !(log[i].DropFinalizer? && log[i].o == o && log[i].clean))
    && DismissedAt(s, log, o.cluster, m)
  }

  /** The read at `m` found no configuration of the tenant, or its release terminating. */
  ghost predicate DismissedAt(s: State, log: seq<Action>, t: string, m: nat)
    requires Legal(s, log) && m < |log|
  {
    var was := Before(s, log, m);
    || (log[m] == ReadConfig(t) && (t !in was.configs || was.configs[t].creds == SecretMissing))
    || (log[m] == ReadRelease(t) && (t !in was.releases || was.releases[t].deleting))
  }

  /**
   No leak, in any interleaving: balancers and addresses of a Service exist only
   while it carries the finalizer, unless a pass over it dropped that because it
   found no configuration or the release terminating. The one other address that can
   be left was allocated after the tenant's release had been marked for deletion, and
   the release was created again.
   */
  lemma NoLeak(s: State, log: seq<Action>, o: Owner) returns (k: nat, m: nat, n: nat)
    requires Fresh(s) && Legal(s, log)
    ensures var s' := After(s, log);
            && (!NoLB(s', o) && !Claimed(s', o) ==> n < |log| && Abandons(s, log, o, k, m, n))
            && (forall f :: f in s'.fips && s'.fips[f].owner == o && !Claimed(s', o) ==>
                  (n < |log| && Abandons(s, log, o, k, m, n)) || (f in s'.late && o.cluster in s'.recreated))
  {
    k, m, n := 0, 0, 0;
    RunKeepsInv(s, log);
    var s' := After(s, log);
    forall id | id in s'.lbs && s'.lbs[id].owner == o ensures Claimed(s', o) || o in s'.released {
      assert LBOk(s', id);
    }
    forall f | f in s'.fips && s'.fips[f].owner == o
      ensures Claimed(s', o) || o in s'.released || (f in s'.late && o.cluster in s'.recreated)
    {
      assert FIPOk(s', f);
    }
    if o in s'.released {
      k, m, n := ReleasedOnlyBy(s, log, o);
    }
  }

  /** An address counts as late only if it was allocated for a tenant whose release had been marked. */
  lemma {:induction false} LateOnlyBy(s: State, log: seq<Action>, f: nat) returns (n: nat)
    requires Legal(s, log) && f !in s.late && f in After(s, log).late
    ensures n < |log| && log[n].CreateFIP?
    ensures Before(s, log, n).nextId == f && log[n].o.cluster in Before(s, log, n).condemned
    decreases |log|
  {
    var rest, a := log[..|log| - 1], log[|log| - 1];
    var was := After(s, rest);
    if f in was.late {
      n := LateOnlyBy(s, rest, f);
      assert rest[..n] == log[..n];
    } else {
      n := |rest|;
      LateBy(was, a, f);
    }
  }

  lemma LateBy(s: State, a: Action, f: nat)
    requires Enabled(s, a) && f !in s.late && f in Apply(s, a).late
    ensures a.CreateFIP? && f == s.nextId && a.o.cluster in s.condemned
  {
    if OnServices(a) {
      FrameServices(s, a);
    } else if OnReleases(a) {
      FrameReleases(s, a);
    } else if OnReads(a) {
      FrameReads(s, a);
    }
  }

  /** A tenant counts as recreated only after a release was marked for deletion and one of its name created later. */
  lemma {:induction false} RecreatedOnlyBy(s: State, log: seq<Action>, t: string) returns (n: nat)
    requires Legal(s, log) && t !in s.recreated && t in After(s, log).recreated
    ensures n < |log| && log[n].EditRelease? && log[n].t == t
    ensures t in Before(s, log, n).condemned && t !in Before(s, log, n).releases
    decreases |log|
  {
    var rest, a := log[..|log| - 1], log[|log| - 1];
    var was := After(s, rest);
    if t in was.recreated {
      n := RecreatedOnlyBy(s, rest, t);
      assert rest[..n] == log[..n];
    } else {
      n := |rest|;
      RecreatedBy(was, a, t);
    }
  }

  lemma RecreatedBy(s: State, a: Action, t: string)
    requires Enabled(s, a) && t !in s.recreated && t in Apply(s, a).recreated
    ensures a.EditRelease? && a.t == t && t in s.condemned && t !in s.releases
  {
    if OnServices(a) {
      FrameServices(s, a);
    } else if OnReads(a) {
      FrameReads(s, a);
    } else if OnCloud(a) {
      FrameCloud(s, a);
    }
  }

  /** An owner counts as released only after a pass over it dropped the finalizer in one of the two branches. */
  lemma {:induction false} ReleasedOnlyBy(s: State, log: seq<Action>, o: Owner) returns (k: nat, m: nat, n: nat)
    requires Legal(s, log) && s.readings == map[] && o !in s.released && o in After(s, log).released
    ensures n < |log| && Abandons(s, log, o, k, m, n)
    decreases |log|
  {
    var rest, a := log[..|log| - 1], log[|log| - 1];
    var was := After(s, rest);
    if o in was.released {
      k, m, n := ReleasedOnlyBy(s, rest, o);
      StillReleased(was, a, o);
      AbandonedBefore(s, log, o, k, m, n);
    } else {
      ReleasedBy(was, a, o);
      k, m, n := AbandonedNow(s, log, o);
    }
  }

  lemma StillReleased(s: State, a: Action, o: Owner)
    requires Enabled(s, a) && o in Apply(s, a).released
    ensures !(a.DropFinalizer? && a.o == o && a.clean)
  {
  }

  lemma AbandonedBefore(s: State, log: seq<Action>, o: Owner, k: nat, m: nat, n: nat)
    requires Legal(s, log) && n < |log| - 1 && Abandons(s, log[..|log| - 1], o, k, m, n)
    requires var a := log[|log| - 1]; !(a.DropFinalizer? && a.o == o && a.clean)
    ensures Abandons(s, log, o, k, m, n)
  {
    hide Legal, After, DismissedAt;
    SameMoment(s, log, o.cluster, m);
  }

  lemma AbandonedNow(s: State, log: seq<Action>, o: Owner) returns (k: nat, m: nat, n: nat)
    requires Legal(s, log) && s.readings == map[] && log != []
    requires Legal(s, log[..|log| - 1]) && Dismissed(After(s, log[..|log| - 1]), o)
    requires var a := log[|log| - 1]; a.DropFinalizer? && a.o == o && !a.clean
    ensures n < |log| && Abandons(s, log, o, k, m, n)
  {
    hide Legal, After, Dismissed, DismissedAt;
    n := |log| - 1;
    k, m := DismissedPass(s, log[..n], o);
    SameMoment(s, log, o.cluster, m);
  }

  /** What a read found does not depend on what came later. */
  lemma SameMoment(s: State, log: seq<Action>, t: string, m: nat)
    requires Legal(s, log) && m < |log| - 1
    ensures DismissedAt(s, log, t, m) == DismissedAt(s, log[..|log| - 1], t, m)
  {
    assert log[..|log| - 1][..m] == log[..m];
  }

  lemma DismissedPass(s: State, log: seq<Action>, o: Owner) returns (k: nat, m: nat)
    requires Legal(s, log) && s.readings == map[] && Dismissed(After(s, log), o)
    ensures k < m < |log| && log[k] == ReadService(o) && DismissedAt(s, log, o.cluster, m)
    ensures forall i :: k < i < |log| ==> !(log[i].ReadService? && log[i].o.cluster == o.cluster)
  {
    k := ReadAt(s, log, o);
    m := DismissedWhen(s, log, o, k);
  }

  lemma ReleasedBy(s: State, a: Action, o: Owner)
    requires Enabled(s, a) && o !in s.released && o in Apply(s, a).released
    ensures a.DropFinalizer? && a.o == o && !a.clean && Dismissed(s, o)
  {
    if OnReleases(a) {
      FrameReleases(s, a);
    } else if OnReads(a) {
      FrameReads(s, a);
    } else if OnCloud(a) {
      FrameCloud(s, a);
    }
  }

  /** A pass began by reading its Service, and no other has begun since. */
  lemma {:induction false} ReadAt(s: State, log: seq<Action>, o: Owner) returns (k: nat)
    requires Legal(s, log) && s.readings == map[] && Minds(After(s, log), o)
    ensures k < |log| && log[k] == ReadService(o)
    ensures forall i :: k < i < |log| ==> !(log[i].ReadService? && log[i].o.cluster == o.cluster)
    decreases |log|
  {
    var rest, a := log[..|log| - 1], log[|log| - 1];
    if a == ReadService(o) {
      k := |rest|;
    } else {
      SameReader(After(s, rest), a, o);
      k := ReadAt(s, rest, o);
    }
  }

  lemma SameReader(s: State, a: Action, o: Owner)
    requires Enabled(s, a) && a != ReadService(o) && Minds(Apply(s, a), o)
    ensures Minds(s, o) && !(a.ReadService? && a.o.cluster == o.cluster)
  {
    if OnServices(a) {
      FrameServices(s, a);
    } else if OnReleases(a) {
      FrameReleases(s, a);
    } else if OnCloud(a) {
      FrameCloud(s, a);
    }
  }

  /** What a pass has read it has read since it began, in the state of that moment. */
  lemma {:induction false} DismissedWhen(s: State, log: seq<Action>, o: Owner, k: nat) returns (m: nat)
    requires Legal(s, log) && Dismissed(After(s, log), o) && k < |log| && log[k] == ReadService(o)
    requires forall i :: k < i < |log| ==> !(log[i].ReadService? && log[i].o.cluster == o.cluster)
    ensures k < m < |log| && DismissedAt(s, log, o.cluster, m)
    decreases |log|
  {
    var rest, a := log[..|log| - 1], log[|log| - 1];
    var was := After(s, rest);
    if |rest| > k && Dismissed(was, o) {
      m := DismissedWhen(s, rest, o, k);
      SameMoment(s, log, o.cluster, m);
    } else {
      m := |rest|;
      assert log[..m] == rest;
      NewlyDismissed(was, a, o);
    }
  }

  lemma NewlyDismissed(s: State, a: Action, o: Owner)
    requires Enabled(s, a) && Dismissed(Apply(s, a), o)
              && !(a.ReadService? && a.o.cluster == o.cluster && a != ReadService(o))
    requires a == ReadService(o) || !Dismissed(s, o)
    ensures || (a == ReadConfig(o.cluster) && ResolveConfig(s.configs, o.cluster) == NotFound)
            || (a == ReadRelease(o.cluster) && Terminating(s, o.cluster))
  {
    if OnServices(a) {
      FrameServices(s, a);
    } else if OnReleases(a) {
      FrameReleases(s, a);
    } else if OnCloud(a) {
      FrameCloud(s, a);
    }
  }

  // ---------------------------------------------------------------- what a pass acts on

  /** What the pass over `o` that began at `k` has read: the configuration, if at all, at `m`, the release at `l`. */
  ghost predicate Traced(s: State, log: seq<Action>, o: Owner, k: nat, m: nat, l: nat)
    requires Legal(s, log) && k < |log|
  {
    var read, t := After(s, log).readings, o.cluster;
    && t in read && read[t].owner == o
    && o in Before(s, log, k).services && read[t].svc == Before(s, log, k).services[o]
    && (read[t].config.Some? ==>
          && k < m < |log| && log[m] == ReadConfig(t)
          && read[t].config.value == ResolveConfig(Before(s, log, m).configs, t))
    && (read[t].live.Some? ==>
          && read[t].config.Some? && m < l < |log| && log[l] == ReadRelease(t)
          && read[t].live.value == !Terminating(Before(s, log, l), t))
  }

  lemma {:induction false} TraceReads(s: State, log: seq<Action>, o: Owner, k: nat) returns (m: nat, l: nat)
    requires Legal(s, log) && k < |log| && log[k] == ReadService(o)
    requires forall i :: k < i < |log| ==> !(log[i].ReadService? && log[i].o.cluster == o.cluster)
    ensures Traced(s, log, o, k, m, l)
    decreases |log|
  {
    hide Legal, After, Enabled, Apply;
    var n := |log| - 1;
    var rest := log[..n];
    LastStep(s, log);
    if k == n {
      m, l := 0, 0;
      JustBegun(After(s, rest), o);
    } else {
      m, l := TraceReads(s, rest, o, k);
      ReadOn(After(s, rest), log[n], o);
      m, l := TraceOn(s, log, o, k, m, l);
    }
  }

  lemma TraceOn(s: State, log: seq<Action>, o: Owner, k: nat, m: nat, l: nat) returns (m': nat, l': nat)
    requires Legal(s, log) && k < |log| - 1 && Legal(s, log[..|log| - 1]) && Traced(s, log[..|log| - 1], o, k, m, l)
    requires var before, a, t := After(s, log[..|log| - 1]), log[|log| - 1], o.cluster;
             var read, now := before.readings[t], After(s, log).readings;
             t in now
             && if a == ReadConfig(t) then
                  read.live == None && now[t] == read.(config := Some(ResolveConfig(before.configs, t)))
                else if a == ReadRelease(t) then
                  read.config.Some? && now[t] == read.(live := Some(!Terminating(before, t)))
                else now[t] == read
    ensures Traced(s, log, o, k, m', l')
  {
    hide Legal, After, ResolveConfig, Terminating;
    var n := |log| - 1;
    m' := if log[n] == ReadConfig(o.cluster) then n else m;
    l' := if log[n] == ReadRelease(o.cluster) then n else l;
    var rest := log[..n];
    assert rest[..k] == log[..k] && (m < n ==> rest[..m] == log[..m]) && (l < n ==> rest[..l] == log[..l]);
  }

  lemma LastStep(s: State, log: seq<Action>)
    requires Legal(s, log) && log != []
    ensures var rest, a := log[..|log| - 1], log[|log| - 1];
            Legal(s, rest) && Enabled(After(s, rest), a) && After(s, log) == Apply(After(s, rest), a)
  {
  }

  lemma JustBegun(s: State, o: Owner)
    requires Enabled(s, ReadService(o))
    ensures o in s.services && o.cluster in Apply(s, ReadService(o)).readings
    ensures Apply(s, ReadService(o)).readings[o.cluster] == Reading(o, s.services[o], None, None)
  {
  }

  /** What an action adds to what the pass under way has read. */
  lemma ReadOn(s: State, a: Action, o: Owner)
    requires Enabled(s, a) && o.cluster in s.readings && !(a.ReadService? && a.o.cluster == o.cluster)
    ensures var t, read, now := o.cluster, s.readings[o.cluster], Apply(s, a).readings;
            t in now
            && if a == ReadConfig(t) then
                 read.live == None && now[t] == read.(config := Some(ResolveConfig(s.configs, t)))
               else if a == ReadRelease(t) then read.config.Some? && now[t] == read.(live := Some(!Terminating(s, t)))
               else now[t] == read
  {
    if OnServices(a) {
      FrameServices(s, a);
    } else if OnReleases(a) {
      FrameReleases(s, a);
    } else if OnCloud(a) {
      FrameCloud(s, a);
    }
  }

  /** Gives the Service something, or takes something away from it after all was read. */
  predicate Builds(a: Action, o: Owner) {
    (a.AddFinalizer? || a.CreateLB? || a.ChangeLB? || a.CreateFIP? || (a.SetIngress? && a.ingress != [])) && a.o == o
  }

  predicate TearsDown(a: Action, o: Owner) {
    (a.DeleteLB? || a.DeleteFIP? || (a.DropFinalizer? && a.clean) || (a.SetIngress? && a.ingress == [])) && a.o == o
  }

  /**
   The pass over `o` that acts at `n` read the Service at `k`, a configuration with usable
   credentials at `m` and a live release at `l`.
   */
  ghost predicate ReadAll(s: State, log: seq<Action>, o: Owner, k: nat, m: nat, l: nat, n: nat)
    requires Legal(s, log) && n < |log|
  {
    && k < m < l < n && log[k] == ReadService(o) && log[m] == ReadConfig(o.cluster) && log[l] == ReadRelease(o.cluster)
    && (forall i :: k < i < n ==> !(log[i].ReadService? && log[i].o.cluster == o.cluster))
    && o in Before(s, log, k).services
    && o.cluster in Before(s, log, m).configs && Before(s, log, m).configs[o.cluster].creds == Usable
    && o.cluster in Before(s, log, l).releases && !Before(s, log, l).releases[o.cluster].deleting
  }

  /**
   In every run, what is done for a Service and its cloud follows from what that very
   pass had read: it builds exactly where it found the Service balanced, not being
   deleted, load balancers switched on and a network for them, and tears down elsewhere.
   */
  lemma ActsOnWhatItRead(s: State, log: seq<Action>, o: Owner, n: nat) returns (k: nat, m: nat, l: nat)
    requires Legal(s, log) && s.readings == map[] && n < |log| && (Builds(log[n], o) || TearsDown(log[n], o))
    ensures ReadAll(s, log, o, k, m, l, n)
    ensures var svc, c := Before(s, log, k).services[o], Before(s, log, m).configs[o.cluster];
            Builds(log[n], o) <==> svc.balanced && !svc.deleting && c.enabled && c.network != ""
  {
    hide Legal, After, Enabled, Builds, TearsDown, ResolveConfig;
    var past := log[..n];
    MayActNow(s, log, n);
    ActsLive(Before(s, log, n), log[n], o);
    k := ReadAt(s, past, o);
    m, l := TraceReads(s, past, o, k);
    assert past[..k] == log[..k] && past[..m] == log[..m] && past[..l] == log[..l];
    ConfigByInput(Before(s, log, m).configs, o.cluster);
  }

  lemma MayActNow(s: State, log: seq<Action>, n: nat)
    requires Legal(s, log) && n < |log|
    ensures Legal(s, log[..n]) && Enabled(Before(s, log, n), log[n])
  {
    LegalPrefix(s, log, n + 1);
    assert log[..n + 1][..n] == log[..n];
  }

  lemma ActsLive(s: State, a: Action, o: Owner)
    requires Enabled(s, a) && (Builds(a, o) || TearsDown(a, o))
    ensures if Builds(a, o) then Providing(s, o) else Cleaning(s, o)
  {
  }
}
