/**
 The ways in which loadbalancer-controller does lose track of a balancer or an
 address (internal/controller), each as a run from an empty system in which every
 pass is there with what it read: what `Finalizers.NoLeak` and `Teardown` leave
 open is open for a reason.
 */
module Leaks {
  import opened ClusterController
  import opened Finalizers
  import opened Listeners
  import opened Tags
  import opened Text

  const USABLE := Config(Usable, true, "network", "", "", [])
  const RESOLVED := Resolved(true, false, "network", "", "", ["0.0.0.0/0"])

  function Empty(): State {
    State(map[], map[], 0, map[], map[], map[], map[], {}, {}, {}, {}, map[])
  }

  /** A run from an empty system that leads to this state. */
  ghost predicate Leads(log: seq<Action>, s: State) {
    Legal(Empty(), log) && After(Empty(), log) == s
  }

  lemma LeadsToInv(log: seq<Action>, s: State)
    requires Leads(log, s)
    ensures Inv(s)
  {
    RunKeepsInv(Empty(), log);
  }

  // ---------------------------------------------------------------- single steps

  lemma Then(log: seq<Action>, s: State, a: Action) returns (longer: seq<Action>)
    requires Leads(log, s) && Enabled(s, a)
    ensures longer == log + [a] && Leads(longer, Apply(s, a))
  {
    longer := log + [a];
    LegalSnoc(Empty(), log, a);
  }

  lemma NewService(log: seq<Action>, s: State, o: Owner, svc: Service) returns (longer: seq<Action>)
    requires Leads(log, s) && o.Wf() && o !in s.services
    requires !svc.deleting && svc.ingress == [] && FINALIZER !in svc.finalizers && DistinctPorts(svc.ports)
    ensures longer == log + [EditService(o, svc)] && Leads(longer, s.(services := s.services[o := svc]))
  {
    hide Leads;
    longer := Then(log, s, EditService(o, svc));
  }

  lemma Configure(log: seq<Action>, s: State, t: string, config: Config) returns (longer: seq<Action>)
    requires Leads(log, s)
    ensures longer == log + [SetConfig(t, Some(config))] && Leads(longer, s.(configs := s.configs[t := config]))
  {
    hide Leads;
    longer := Then(log, s, SetConfig(t, Some(config)));
  }

  lemma Unconfigure(log: seq<Action>, s: State, t: string) returns (longer: seq<Action>)
    requires Leads(log, s)
    ensures longer == log + [SetConfig(t, None)] && Leads(longer, s.(configs := s.configs - {t}))
  {
    hide Leads;
    longer := Then(log, s, SetConfig(t, None));
  }

  /** A new release, then claimed by the cluster controller. */
  lemma NewRelease(log: seq<Action>, s: State, t: string) returns (longer: seq<Action>)
    requires Leads(log, s) && t !in s.releases
    ensures longer == log + [EditRelease(t, Release(false, {})), AddClusterFinalizer(t, {})]
    ensures var again := if t in s.condemned then s.recreated + {t} else s.recreated;
            Leads(longer, s.(releases := s.releases[t := Release(false, {CLUSTER_FINALIZER})], recreated := again))
  {
    hide Leads;
    longer := Then(log, s, EditRelease(t, Release(false, {})));
    var s1 := Apply(s, EditRelease(t, Release(false, {})));
    longer := Then(longer, s1, AddClusterFinalizer(t, {}));
    assert {} + {CLUSTER_FINALIZER} == {CLUSTER_FINALIZER};
    assert Apply(s1, AddClusterFinalizer(t, {})).releases == s.releases[t := Release(false, {CLUSTER_FINALIZER})];
  }

  function Marking(s: State, t: string): State {
    s.(releases := s.releases[t := Release(true, {CLUSTER_FINALIZER})], condemned := s.condemned + {t})
  }

  lemma Mark(log: seq<Action>, s: State, t: string) returns (longer: seq<Action>)
    requires Leads(log, s) && t in s.releases && s.releases[t] == Release(false, {CLUSTER_FINALIZER})
    ensures longer == log + [DeleteRelease(t)] && Leads(longer, Marking(s, t))
  {
    hide Leads;
    longer := Then(log, s, DeleteRelease(t));
  }

  lemma LetReleaseGo(log: seq<Action>, s: State, t: string) returns (longer: seq<Action>)
    requires Leads(log, s) && t in s.releases && s.releases[t] == Release(true, {CLUSTER_FINALIZER}) && t in s.condemned
    ensures longer == log + [DropClusterFinalizer(t, {CLUSTER_FINALIZER})]
    ensures Leads(longer, s.(releases := s.releases - {t}))
  {
    hide Leads;
    longer := Then(log, s, DropClusterFinalizer(t, {CLUSTER_FINALIZER}));
    assert {CLUSTER_FINALIZER} - {CLUSTER_FINALIZER} == {} && s.condemned + {t} == s.condemned;
  }

  /** A pass over `o` that has read everything: the Service, its configuration, a live release. */
  function WithReading(s: State, o: Owner, svc: Service): State {
    s.(readings := s.readings[o.cluster := Reading(o, svc, Some(Found(RESOLVED)), Some(true))])
  }

  /** The three reads of a pass that finds the Service, a usable configuration and a live release. */
  lemma ReadAll(log: seq<Action>, s: State, o: Owner) returns (longer: seq<Action>)
    requires Leads(log, s) && o in s.services
    requires o.cluster in s.configs && s.configs[o.cluster] == USABLE && !Terminating(s, o.cluster)
    ensures longer == log + [ReadService(o), ReadConfig(o.cluster), ReadRelease(o.cluster)]
    ensures Leads(longer, WithReading(s, o, s.services[o]))
  {
    hide Leads;
    var t, svc := o.cluster, s.services[o];
    longer := Then(log, s, ReadService(o));
    var s1 := s.(readings := s.readings[t := Reading(o, svc, None, None)]);
    longer := ReadOn(longer, s1, t, Reading(o, svc, None, None));
    assert s1.readings[t := Reading(o, svc, Some(Found(RESOLVED)), Some(true))] == WithReading(s, o, svc).readings;
  }

  lemma ReadOn(log: seq<Action>, s: State, t: string, m: Reading) returns (longer: seq<Action>)
    requires Leads(log, s) && t in s.readings && s.readings[t] == m && m.config == None && m.live == None
    requires t in s.configs && s.configs[t] == USABLE && !Terminating(s, t)
    ensures longer == log + [ReadConfig(t), ReadRelease(t)]
    ensures Leads(longer, s.(readings := s.readings[t := m.(config := Some(Found(RESOLVED)), live := Some(true))]))
  {
    hide Leads;
    longer := Then(log, s, ReadConfig(t));
    var s1 := s.(readings := s.readings[t := m.(config := Some(Found(RESOLVED)))]);
    assert ResolveConfig(s.configs, t) == Found(RESOLVED) && Apply(s, ReadConfig(t)) == s1;
    longer := Then(longer, s1, ReadRelease(t));
    assert s1.readings[t := m.(config := Some(Found(RESOLVED)), live := Some(true))]
        == s.readings[t := m.(config := Some(Found(RESOLVED)), live := Some(true))];
  }

  lemma Claim(log: seq<Action>, s: State, o: Owner, svc: Service) returns (longer: seq<Action>)
    requires Leads(log, s) && o in s.services && s.services[o] == svc && !svc.deleting && svc.finalizers == {}
    requires Providing(s, o)
    ensures longer == log + [AddFinalizer(o, {})]
    ensures Leads(longer, s.(services := s.services[o := svc.(finalizers := {FINALIZER})]))
  {
    hide Leads;
    longer := Then(log, s, AddFinalizer(o, {}));
    assert {} + {FINALIZER} == {FINALIZER};
  }

  function NewLB(o: Owner, status: Status): LB {
    LB(o, true, "10.0.0.1", status, View([], [], 0))
  }

  function WithLB(s: State, o: Owner, status: Status): State {
    s.(lbs := map[0 := NewLB(o, status)], owners := map[0 := o], nextId := 1)
  }

  lemma Create(log: seq<Action>, s: State, o: Owner) returns (longer: seq<Action>)
    requires Leads(log, s) && o.Wf() && Providing(s, o) && Claimed(s, o)
    requires s.lbs == map[] && s.owners == map[] && s.nextId == 0
    ensures longer == log + [CreateLB(o, true, "10.0.0.1")] && Leads(longer, WithLB(s, o, PendingCreate))
  {
    hide Leads;
    longer := Then(log, s, CreateLB(o, true, "10.0.0.1"));
    assert s.lbs[0 := NewLB(o, PendingCreate)] == map[0 := NewLB(o, PendingCreate)];
    assert s.owners[0 := o] == map[0 := o];
  }

  lemma Settles(log: seq<Action>, s: State, o: Owner) returns (longer: seq<Action>)
    requires Leads(log, s) && s.lbs == map[0 := NewLB(o, PendingCreate)]
    ensures longer == log + [Settle(0, Active)] && Leads(longer, s.(lbs := map[0 := NewLB(o, Active)]))
  {
    hide Leads;
    longer := Then(log, s, Settle(0, Active));
    assert s.lbs[0 := NewLB(o, Active)] == map[0 := NewLB(o, Active)];
  }

  function Address(o: Owner): FIP {
    FIP(o, 0, "203.0.113.1")
  }

  function WithAddress(s: State, o: Owner): State {
    s.(fips := map[1 := Address(o)], nextId := 2, late := if o.cluster in s.condemned then {1} else {})
  }

  lemma Allocate(log: seq<Action>, s: State, o: Owner) returns (longer: seq<Action>)
    requires Leads(log, s) && Providing(s, o) && Claimed(s, o) && BoundAside(s, 0, o)
    requires Standing(s, 0, o) || o.cluster in s.condemned
    requires s.fips == map[] && s.nextId == 1 && s.late == {}
    ensures longer == log + [CreateFIP(o, 0, "203.0.113.1")] && Leads(longer, WithAddress(s, o))
  {
    hide Leads;
    longer := Then(log, s, CreateFIP(o, 0, "203.0.113.1"));
    assert {} + {1} == {1};
    assert s.fips[1 := Address(o)] == map[1 := Address(o)];
  }

  lemma PutAway(log: seq<Action>, s: State, o: Owner) returns (longer: seq<Action>)
    requires Leads(log, s) && s.lbs == map[0 := NewLB(o, Active)] && o.cluster in s.condemned && Clear(s, o.cluster, 0)
    ensures longer == log + [SweepLB(o.cluster, 0)] && Leads(longer, s.(lbs := map[0 := NewLB(o, PendingDelete)]))
  {
    hide Leads;
    longer := Then(log, s, SweepLB(o.cluster, 0));
    assert s.lbs[0 := NewLB(o, PendingDelete)] == map[0 := NewLB(o, PendingDelete)];
  }

  // ---------------------------------------------------------------- a Service in service

  /** What every tenant starts with: a usable configuration and a live release. */
  function Ready(o: Owner, finalizers: set<string>): State {
    Empty().(services := map[o := Service(true, false, finalizers, [], [])], configs := map[o.cluster := USABLE],
             releases := map[o.cluster := Release(false, {CLUSTER_FINALIZER})])
  }

  lemma MakeReady(o: Owner) returns (log: seq<Action>)
    requires o.Wf()
    ensures Leads(log, Ready(o, {}))
  {
    var t, svc, s := o.cluster, Service(true, false, {}, [], []), Empty();
    assert Leads([], s);
    hide Leads;
    log := NewService([], s, o, svc);
    assert s.services[o := svc] == map[o := svc];
    s := s.(services := map[o := svc]);
    log := Configure(log, s, t, USABLE);
    assert s.configs[t := USABLE] == map[t := USABLE];
    s := s.(configs := map[t := USABLE]);
    log := NewRelease(log, s, t);
    assert s.releases[t := Release(false, {CLUSTER_FINALIZER})] == map[t := Release(false, {CLUSTER_FINALIZER})];
  }

  /** The Service is claimed, and the next pass over it has read everything. */
  function Looked(o: Owner): State {
    Ready(o, {FINALIZER}).(
      readings := map[o.cluster := Reading(o, Service(true, false, {FINALIZER}, [], []), Some(Found(RESOLVED)),
          Some(true))])
  }

  lemma MakeLooked(o: Owner) returns (log: seq<Action>)
    requires o.Wf()
    ensures Leads(log, Looked(o)) && |log| > 0 && log[|log| - 1] == ReadRelease(o.cluster)
  {
    hide Leads;
    var t, svc, claimed := o.cluster, Service(true, false, {}, [], []), Service(true, false, {FINALIZER}, [], []);
    log := MakeReady(o);
    var s := Ready(o, {});
    log := ReadAll(log, s, o);
    s := WithReading(s, o, svc);
    log := Claim(log, s, o, svc);
    assert s.services[o := claimed] == map[o := claimed];
    s := s.(services := map[o := claimed]);
    log := ReadAll(log, s, o);
    assert WithReading(s, o, claimed).readings == Looked(o).readings;
  }

  /** That pass created the balancer, and Octavia has finished it. */
  lemma MakeRunning(o: Owner) returns (log: seq<Action>)
    requires o.Wf()
    ensures Leads(log, WithLB(Looked(o), o, Active))
  {
    hide Leads;
    log := MakeLooked(o);
    log := Create(log, Looked(o), o);
    log := Settles(log, WithLB(Looked(o), o, PendingCreate), o);
  }

  // ---------------------------------------------------------------- the leaks

  const NO_SECRET := USABLE.(creds := SecretMissing)

  /**
   With the Secret missing, the finalizer comes off without cleanup although the
   configuration object is there and the release was never marked for deletion.
   */
  lemma MissingSecretLeaks(o: Owner) returns (log: seq<Action>, s: State)
    requires o.Wf()
    ensures Leads(log, s) && s.condemned == {} && !Terminating(s, o.cluster)
    ensures o.cluster in s.configs && s.configs[o.cluster].enabled && s.configs[o.cluster].creds == SecretMissing
    ensures 0 in s.lbs && s.lbs[0].owner == o && s.lbs[0].status == Active && !Claimed(s, o)
  {
    hide Leads;
    var t := o.cluster;
    log := MakeRunning(o);
    s := WithLB(Looked(o), o, Active);
    log := Configure(log, s, t, NO_SECRET);
    s := s.(configs := s.configs[t := NO_SECRET]);
    log, s := Abandon(log, s, o);
  }

  /** A pass that finds no configuration, and takes the finalizer off for it. */
  lemma Abandon(log: seq<Action>, s: State, o: Owner) returns (longer: seq<Action>, s': State)
    requires Leads(log, s) && o in s.services && s.services[o].finalizers == {FINALIZER} && !s.services[o].deleting
    requires ResolveConfig(s.configs, o.cluster) == NotFound
    ensures longer == log + [ReadService(o), ReadConfig(o.cluster), DropFinalizer(o, {FINALIZER}, false)]
    ensures Leads(longer, s') && !Claimed(s', o)
    ensures s' == s.(services := s'.services, readings := s'.readings, released := s'.released)
  {
    hide Leads;
    var t, svc := o.cluster, s.services[o];
    longer := Then(log, s, ReadService(o));
    s' := s.(readings := s.readings[t := Reading(o, svc, None, None)]);
    longer := Then(longer, s', ReadConfig(t));
    s' := s'.(readings := s'.readings[t := Reading(o, svc, Some(NotFound), None)]);
    longer := Then(longer, s', DropFinalizer(o, {FINALIZER}, false));
    s' := Apply(s', DropFinalizer(o, {FINALIZER}, false));
  }

  /**
   A release of the same name, created after a teardown, makes the next pass believe
   that the Service is gone without a trace: an address that a slow pass allocated
   during the teardown stays, its balancer gone and the finalizer off after a cleanup.
   */
  lemma RecreationLeaks(o: Owner) returns (log: seq<Action>, s: State)
    requires o.Wf()
    ensures Leads(log, s) && o.cluster in s.recreated && o !in s.released
    ensures HasFIP(s, o) && 1 in s.fips && 1 in s.late && NoLB(s, o) && !Claimed(s, o)
  {
    hide Leads;
    var t := o.cluster;
    log, s := SlowPassAllocates(o);
    log := LetReleaseGo(log, s, t);
    s := s.(releases := s.releases - {t});
    log := NewRelease(log, s, t);
    s := s.(releases := s.releases[t := Release(false, {CLUSTER_FINALIZER})], recreated := s.recreated + {t});
    log, s := DeletedCleanly(log, s, o);
    assert s.fips[1].owner == o;
  }

  /** The Service is deleted, and the next pass finds nothing left of it but the finalizer. */
  lemma DeletedCleanly(log: seq<Action>, s: State, o: Owner) returns (longer: seq<Action>, s': State)
    requires Leads(log, s) && o in s.services && s.services[o] == Service(true, false, {FINALIZER}, [], [])
    requires o.cluster in s.configs && s.configs[o.cluster] == USABLE && !Terminating(s, o.cluster) && NoLB(s, o)
    ensures Leads(longer, s') && !Claimed(s', o) && o !in s'.released
    ensures s' == s.(services := s'.services, readings := s'.readings, released := s'.released)
  {
    hide Leads;
    var marked := s.services[o].(deleting := true);
    longer := Then(log, s, DeleteService(o));
    s' := s.(services := s.services[o := marked]);
    longer := ReadAll(longer, s', o);
    s' := WithReading(s', o, marked);
    longer := Then(longer, s', DropFinalizer(o, {FINALIZER}, true));
    s' := Apply(s', DropFinalizer(o, {FINALIZER}, true));
  }

  /** A pass that saw the release alive allocates its address after the sweep put the balancer on its way out. */
  lemma SlowPassAllocates(o: Owner) returns (log: seq<Action>, s: State)
    requires o.Wf()
    ensures Leads(log, s) && s.lbs == map[] && s.fips == map[1 := Address(o)] && o.cluster in s.condemned && 1 in s.late
    ensures s.services == Looked(o).services && s.configs == Looked(o).configs
    ensures s.releases == map[o.cluster := Release(true, {CLUSTER_FINALIZER})]
  {
    hide Leads;
    var t := o.cluster;
    log := MakeRunning(o);
    s := WithLB(Looked(o), o, Active);
    log := Mark(log, s, t);
    s := Marking(s, t);
    log := PutAway(log, s, o);
    s := s.(lbs := map[0 := NewLB(o, PendingDelete)]);
    log := Allocate(log, s, o);
    s := WithAddress(s, o);
    log := Then(log, s, Vanish(0));
    s := s.(lbs := s.lbs - {0});
  }

  /**
   Passes have to be atomic for the teardown: one that read the release alive may
   still create its balancer after the sweep found none and let the release go.
   */
  lemma InterleavedPassLeaks(o: Owner) returns (looked: seq<Action>, log: seq<Action>, s: State)
    requires o.Wf()
    ensures Leads(log, s) && Fresh(Empty()) && Providing(s, o)
    ensures looked != [] && looked[|looked| - 1] == ReadRelease(o.cluster)
    ensures log == looked + [DeleteRelease(o.cluster), DropClusterFinalizer(o.cluster, {CLUSTER_FINALIZER}),
                             CreateLB(o, true, "10.0.0.1")]
    ensures o.cluster in s.condemned && o.cluster !in s.releases
    ensures 0 in s.lbs && s.lbs[0].owner == o && s.lbs[0].status == PendingCreate
  {
    hide Leads;
    var t := o.cluster;
    log := MakeLooked(o);
    looked := log;
    s := Looked(o);
    log := Mark(log, s, t);
    s := Marking(s, t);
    log := LetReleaseGo(log, s, t);
    s := s.(releases := s.releases - {t});
    log := Create(log, s, o);
    s := WithLB(s, o, PendingCreate);
  }

  /**
   Where the tenant's configuration is gone, a failed listing of the sibling releases
   costs it the sweep: between `a` and `b` lies one pass that lets the release go with
   the balancer as it was, although a sibling's credentials would have served.
   */
  lemma FailedListingLeaks(o: Owner, sibling: string) returns (log: seq<Action>, a: State, b: State)
    requires o.Wf() && sibling != o.cluster && sibling != ""
    ensures Leads(log, b) && log != [] && log[|log| - 1] == DropClusterFinalizer(o.cluster, {CLUSTER_FINALIZER})
    ensures Leads(log[..|log| - 1], a) && ClusterPass(a, b, o.cluster, false) && Marked(a, o.cluster)
    ensures o.cluster !in a.configs && sibling in a.releases
    ensures sibling in a.configs && a.configs[sibling].creds == Usable
    ensures o.cluster !in b.releases && 0 in b.lbs && b.lbs[0].owner == o && b.lbs[0].status == Active
  {
    hide Leads;
    log, a := Unconfigured(o, sibling);
    assert Lends(a, o.cluster, sibling, true);
    var longer := LetReleaseGo(log, a, o.cluster);
    assert longer[..|longer| - 1] == log;
    log := longer;
    b := a.(releases := a.releases - {o.cluster});
  }

  /** A running balancer of a marked tenant whose configuration is gone, and a sibling with credentials. */
  lemma Unconfigured(o: Owner, sibling: string) returns (log: seq<Action>, s: State)
    requires o.Wf() && sibling != o.cluster
    ensures Leads(log, s) && s.lbs == map[0 := NewLB(o, Active)] && o.cluster !in s.configs && o.cluster in s.condemned
    ensures o.cluster in s.releases && s.releases[o.cluster] == Release(true, {CLUSTER_FINALIZER})
    ensures sibling in s.releases && sibling in s.configs && s.configs[sibling] == USABLE
  {
    hide Leads;
    var t := o.cluster;
    log := MakeRunning(o);
    s := WithLB(Looked(o), o, Active);
    log := Configure(log, s, sibling, USABLE);
    s := s.(configs := s.configs[sibling := USABLE]);
    log := NewRelease(log, s, sibling);
    s := s.(releases := s.releases[sibling := Release(false, {CLUSTER_FINALIZER})]);
    log := Unconfigure(log, s, t);
    s := s.(configs := s.configs - {t});
    log := Mark(log, s, t);
    s := Marking(s, t);
  }
}
