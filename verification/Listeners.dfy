/**
 Listener, pool and member reconciliation of one Octavia load balancer
 (loadbalancer-controller/internal/openstack/loadbalancer.go). A call makes at
 most one change and yields; `Work` bounds how many calls change anything, and
 the calls that change nothing are exactly those on a `Settled` balancer.
 */
module Listeners {
  import opened Requests
  import opened Text

  datatype Protocol = TCP | UDP | SCTP | Unsupported(name: string) {
    function Lower(): string {
      match this
      case TCP => "tcp"
      case UDP => "udp"
      case SCTP => "sctp"
      case Unsupported(n) => n
    }
  }

  datatype ServicePort = ServicePort(port: nat, nodePort: nat, protocol: Protocol) {
    function ListenerName(): string { "port-" + Decimal(port) + "-" + protocol.Lower() }
    predicate Usable() { !protocol.Unsupported? && nodePort != 0 }
  }

  /** The names in the cloud, spelled out. */
  lemma ProtocolNames(port: nat, nodePort: nat)
    ensures TCP.Lower() == "tcp" && UDP.Lower() == "udp" && SCTP.Lower() == "sctp"
    ensures ServicePort(port, nodePort, TCP).ListenerName() == "port-" + Decimal(port) + "-tcp"
    ensures ServicePort(port, nodePort, UDP).ListenerName() == "port-" + Decimal(port) + "-udp"
    ensures ServicePort(port, nodePort, SCTP).ListenerName() == "port-" + Decimal(port) + "-sctp"
  {
  }

  datatype Listener = Listener(id: nat, name: string, protocol: Protocol, port: nat)
  datatype Member = Member(address: string, port: nat, subnet: string)
  datatype Pool = Pool(id: nat, listeners: set<nat>, members: seq<Member>)
  datatype View = View(listeners: seq<Listener>, pools: seq<Pool>, nextId: nat)

  /** What the Service asks for; worker addresses are distinct. */
  datatype Goal = Goal(ports: seq<ServicePort>, ips: seq<string>, subnet: string) {
    predicate Wf() {
      && (forall i, j :: 0 <= i < j < |ports| ==>
            (ports[i].port, ports[i].protocol) != (ports[j].port, ports[j].protocol))
      && (forall i, j :: 0 <= i < j < |ips| ==> ips[i] != ips[j])
    }

    predicate Usable() { forall p :: p in ports ==> p.Usable() }

    function Members(p: ServicePort): seq<Member> {
      seq(|ips|, i requires 0 <= i < |ips| => Member(ips[i], p.nodePort, subnet))
    }

    function Names(): set<string> { set p | p in ports :: p.ListenerName() }
  }

  predicate DistinctAddresses(ms: seq<Member>) {
    forall i, j :: 0 <= i < j < |ms| ==> ms[i].address != ms[j].address
  }

  predicate ValidListeners(ls: seq<Listener>, nextId: nat) {
    && (forall i, j :: 0 <= i < j < |ls| ==> ls[i].name != ls[j].name && ls[i].id != ls[j].id)
    && (forall l :: l in ls ==> l.id < nextId)
  }

  predicate ValidPools(ps: seq<Pool>, nextId: nat) {
    && (forall i, j :: 0 <= i < j < |ps| ==> ps[i].listeners !! ps[j].listeners && ps[i].id != ps[j].id)
    && (forall p :: p in ps ==> p.id < nextId && DistinctAddresses(p.members))
    && (forall p, a, b :: p in ps && a in p.listeners && b in p.listeners ==> a == b && a < nextId)
  }

  /** Distinct listener names and ids, one pool per listener, distinct member addresses. */
  predicate ValidView(v: View) {
    ValidListeners(v.listeners, v.nextId) && ValidPools(v.pools, v.nextId)
  }

  // ---------------------------------------------------------------- looking things up

  function FindListener(ls: seq<Listener>, name: string): (r: Option<Listener>)
    ensures r.Some? ==> r.value in ls && r.value.name == name
    ensures r.None? ==> forall l :: l in ls ==> l.name != name
  {
    if ls == [] then None else if ls[0].name == name then Some(ls[0]) else FindListener(ls[1..], name)
  }

  function FindPool(ps: seq<Pool>, listener: nat): (r: Option<Pool>)
    ensures r.Some? ==> r.value in ps && listener in r.value.listeners
    ensures r.None? ==> forall p :: p in ps ==> listener !in p.listeners
  {
    if ps == [] then None else if listener in ps[0].listeners then Some(ps[0]) else FindPool(ps[1..], listener)
  }

  /** The pool holds exactly these members, in whatever order. */
  predicate SameMembers(have: seq<Member>, want: seq<Member>) {
    (set m | m in have) == (set m | m in want)
  }

  // ---------------------------------------------------------------- how much is left to do

  function Cost(v: View, g: Goal, p: ServicePort): nat {
    var l := FindListener(v.listeners, p.ListenerName());
    if l.None? then 3 else
      var pool := FindPool(v.pools, l.value.id);
      if pool.None? then 2
      else if SameMembers(pool.value.members, g.Members(p)) then 0 else 1
  }

  function PortsCost(v: View, g: Goal, ps: seq<ServicePort>): nat {
    if ps == [] then 0 else Cost(v, g, ps[0]) + PortsCost(v, g, ps[1..])
  }

  function Stale(ls: seq<Listener>, names: set<string>): nat {
    if ls == [] then 0 else (if ls[0].name in names then 0 else 1) + Stale(ls[1..], names)
  }

  function Work(v: View, g: Goal): nat {
    PortsCost(v, g, g.ports) + Stale(v.listeners, g.Names())
  }

  /** One listener per Service port and no other, each with a pool of exactly the workers. */
  ghost predicate Settled(v: View, g: Goal) {
    && (set l | l in v.listeners :: l.name) == g.Names()
    && forall p :: p in g.ports ==> Served(v, g, p)
  }

  ghost predicate Served(v: View, g: Goal, p: ServicePort) {
    exists l, pool :: l in v.listeners && l.name == p.ListenerName()
                      && pool in v.pools && l.id in pool.listeners
                      && SameMembers(pool.members, g.Members(p))
  }

  /** A pool with just the workers as members, at the port's NodePort. */
  ghost predicate AllWorkers(pool: Pool, p: ServicePort, ips: seq<string>, subnet: string) {
    forall m :: m in pool.members <==> m.address in ips && m.port == p.nodePort && m.subnet == subnet
  }

  /** Every listener is of a Service port, and every Service port has its listener and pool. */
  ghost predicate BalancesJust(v: View, ports: seq<ServicePort>, ips: seq<string>, subnet: string) {
    && (forall l :: l in v.listeners ==> exists p :: p in ports && l.name == p.ListenerName())
    && (forall p :: p in ports ==> Balanced(v, p, ips, subnet))
  }

  /** What a settled balancer looks like, listener by listener and member by member. */
  lemma SettledMeans(v: View, g: Goal)
    ensures Settled(v, g) <==> BalancesJust(v, g.ports, g.ips, g.subnet)
  {
    hide Served, Balanced, ServicePort.ListenerName;
    forall p | p in g.ports ensures Served(v, g, p) <==> Balanced(v, p, g.ips, g.subnet) {
      ServedMeans(v, g, p);
    }
    if forall p :: p in g.ports ==> Served(v, g, p) {
      NamesCovered(v, g);
    }
  }

  /** The port has a listener, and that a pool of just the workers. */
  ghost predicate Balanced(v: View, p: ServicePort, ips: seq<string>, subnet: string) {
    exists l, pool :: && l in v.listeners && l.name == p.ListenerName() && pool in v.pools
                      && l.id in pool.listeners && AllWorkers(pool, p, ips, subnet)
  }

  lemma ServedMeans(v: View, g: Goal, p: ServicePort)
    ensures Served(v, g, p) <==> Balanced(v, p, g.ips, g.subnet)
  {
    hide SameMembers, AllWorkers, ServicePort.ListenerName;
    forall pool | pool in v.pools
      ensures SameMembers(pool.members, g.Members(p)) <==> AllWorkers(pool, p, g.ips, g.subnet)
    {
      WorkersAre(g, p, pool);
    }
  }

  lemma WorkersAre(g: Goal, p: ServicePort, pool: Pool)
    ensures SameMembers(pool.members, g.Members(p)) <==> AllWorkers(pool, p, g.ips, g.subnet)
  {
    var want := g.Members(p);
    forall m ensures m in want <==> m.address in g.ips && m.port == p.nodePort && m.subnet == g.subnet {
      if m.address in g.ips && m.port == p.nodePort && m.subnet == g.subnet {
        var i :| 0 <= i < |g.ips| && g.ips[i] == m.address;
        assert want[i] == m;
      }
    }
    var have, wanted := set m | m in pool.members, set m | m in want;
    if have == wanted {
      forall m ensures m in pool.members <==> m in want {
        assert m in have <==> m in wanted;
      }
    }
  }

  /** A listener known by a Service port's name serves that port and protocol. */
  ghost predicate Faithful(v: View, g: Goal) {
    forall l :: l in v.listeners && l.name in g.Names() ==> l.name == ServicePort(l.port, 0, l.protocol).ListenerName()
  }

  // ---------------------------------------------------------------- the four changes

  function WithListener(v: View, p: ServicePort): View {
    v.(listeners := v.listeners + [Listener(v.nextId, p.ListenerName(), p.protocol, p.port)], nextId := v.nextId + 1)
  }

  function WithPool(v: View, listener: nat): View {
    v.(pools := v.pools + [Pool(v.nextId, {listener}, [])], nextId := v.nextId + 1)
  }

  function SetMembers(ps: seq<Pool>, pool: nat, ms: seq<Member>): (r: seq<Pool>)
    ensures |r| == |ps|
    ensures forall i :: 0 <= i < |ps| ==> r[i] == if ps[i].id == pool then ps[i].(members := ms) else ps[i]
  {
    seq(|ps|, i requires 0 <= i < |ps| => if ps[i].id == pool then ps[i].(members := ms) else ps[i])
  }

  function WithMembers(v: View, pool: nat, ms: seq<Member>): View {
    v.(pools := SetMembers(v.pools, pool, ms))
  }

  function DropListener(ls: seq<Listener>, id: nat): seq<Listener> {
    if ls == [] then [] else if ls[0].id == id then DropListener(ls[1..], id) else [ls[0]] + DropListener(ls[1..], id)
  }

  function DropPools(ps: seq<Pool>, id: nat): seq<Pool> {
    if ps == [] then [] else if id in ps[0].listeners then DropPools(ps[1..], id) else [ps[0]] + DropPools(ps[1..], id)
  }

  /** The cascade takes the listener's pool along. */
  function WithoutListener(v: View, id: nat): View {
    v.(listeners := DropListener(v.listeners, id), pools := DropPools(v.pools, id))
  }

  // ---------------------------------------------------------------- lookups after a change

  lemma ListenerNameInjective(p: ServicePort, q: ServicePort)
    requires p.Usable() && q.Usable() && p.ListenerName() == q.ListenerName()
    ensures p.port == q.port && p.protocol == q.protocol
  {
    var a, b := Decimal(p.port), Decimal(q.port);
    assert p.ListenerName()[5..] == a + ['-'] + p.protocol.Lower();
    assert q.ListenerName()[5..] == b + ['-'] + q.protocol.Lower();
    CutUnique(a, p.protocol.Lower(), b, q.protocol.Lower(), '-');
    DecimalInjective(p.port, q.port);
    assert "tcp"[0] != "udp"[0] && "tcp"[0] != "sctp"[0] && "udp"[0] != "sctp"[0];
  }

  lemma {:induction false} FindListenerUnique(ls: seq<Listener>, nextId: nat, l: Listener)
    requires ValidListeners(ls, nextId) && l in ls
    ensures FindListener(ls, l.name) == Some(l)
  {
  }

  lemma {:induction false} FindPoolUnique(ps: seq<Pool>, nextId: nat, p: Pool, listener: nat)
    requires ValidPools(ps, nextId) && p in ps && listener in p.listeners
    ensures FindPool(ps, listener) == Some(p)
  {
  }

  lemma {:induction false} FindListenerAppend(ls: seq<Listener>, x: Listener, name: string)
    ensures FindListener(ls + [x], name) ==
            if FindListener(ls, name).Some? then FindListener(ls, name) else if x.name == name then Some(x) else None
  {
    if ls == [] {
      assert ls + [x] == [x];
    } else {
      assert (ls + [x])[1..] == ls[1..] + [x];
      FindListenerAppend(ls[1..], x, name);
    }
  }

  lemma {:induction false} FindPoolAppend(ps: seq<Pool>, x: Pool, listener: nat)
    ensures FindPool(ps + [x], listener) ==
            if FindPool(ps, listener).Some? then FindPool(ps, listener)
            else if listener in x.listeners then Some(x) else None
  {
    if ps == [] {
      assert ps + [x] == [x];
    } else {
      assert (ps + [x])[1..] == ps[1..] + [x];
      FindPoolAppend(ps[1..], x, listener);
    }
  }

  lemma {:induction false} FindPoolSetMembers(ps: seq<Pool>, pool: nat, ms: seq<Member>, listener: nat)
    ensures FindPool(SetMembers(ps, pool, ms), listener) ==
            match FindPool(ps, listener)
            case None => None
            case Some(p) => Some(if p.id == pool then p.(members := ms) else p)
  {
    if ps != [] {
      assert SetMembers(ps, pool, ms)[1..] == SetMembers(ps[1..], pool, ms);
      FindPoolSetMembers(ps[1..], pool, ms, listener);
    }
  }

  lemma {:induction false} DropListenerFacts(ls: seq<Listener>, nextId: nat, id: nat)
    requires ValidListeners(ls, nextId)
    ensures ValidListeners(DropListener(ls, id), nextId)
    ensures forall l :: l in DropListener(ls, id) <==> l in ls && l.id != id
  {
    if ls != [] {
      DropListenerFacts(ls[1..], nextId, id);
      assert forall l :: l in ls <==> l == ls[0] || l in ls[1..];
    }
  }

  lemma {:induction false} DropPoolsFacts(ps: seq<Pool>, nextId: nat, id: nat)
    requires ValidPools(ps, nextId)
    ensures ValidPools(DropPools(ps, id), nextId)
    ensures forall p :: p in DropPools(ps, id) <==> p in ps && id !in p.listeners
  {
    if ps != [] {
      DropPoolsFacts(ps[1..], nextId, id);
      assert forall p :: p in ps <==> p == ps[0] || p in ps[1..];
    }
  }

  // ---------------------------------------------------------------- what a change costs

  /** Costs of the listed ports when one of them got cheaper and the others stayed. */
  lemma {:induction false} PortsCostDrop(v: View, w: View, g: Goal, ps: seq<ServicePort>, p: ServicePort)
    requires p in ps && forall i, j :: 0 <= i < j < |ps| ==> ps[i] != ps[j]
    requires forall q :: q in ps && q != p ==> Cost(w, g, q) == Cost(v, g, q)
    ensures PortsCost(w, g, ps) == PortsCost(v, g, ps) + Cost(w, g, p) - Cost(v, g, p)
  {
    if ps[0] == p {
      PortsCostSame(v, w, g, ps[1..]);
    } else {
      PortsCostDrop(v, w, g, ps[1..], p);
    }
  }

  lemma {:induction false} PortsCostSame(v: View, w: View, g: Goal, ps: seq<ServicePort>)
    requires forall q :: q in ps ==> Cost(w, g, q) == Cost(v, g, q)
    ensures PortsCost(w, g, ps) == PortsCost(v, g, ps)
  {
    if ps != [] {
      PortsCostSame(v, w, g, ps[1..]);
    }
  }

  lemma {:induction false} StaleAppend(ls: seq<Listener>, x: Listener, names: set<string>)
    ensures Stale(ls + [x], names) == Stale(ls, names) + if x.name in names then 0 else 1
  {
    if ls == [] {
      assert ls + [x] == [x];
    } else {
      assert (ls + [x])[1..] == ls[1..] + [x];
      StaleAppend(ls[1..], x, names);
    }
  }

  lemma {:induction false} StaleDrop(ls: seq<Listener>, nextId: nat, l: Listener, names: set<string>)
    requires ValidListeners(ls, nextId) && l in ls && l.name !in names
    ensures Stale(DropListener(ls, l.id), names) == Stale(ls, names) - 1
  {
    if ls[0] == l {
      DropAbsent(ls[1..], l.id);
    } else {
      StaleDrop(ls[1..], nextId, l, names);
    }
  }

  lemma {:induction false} DropAbsent(ls: seq<Listener>, id: nat)
    requires forall l :: l in ls ==> l.id != id
    ensures DropListener(ls, id) == ls
  {
    if ls != [] {
      DropAbsent(ls[1..], id);
    }
  }

  lemma ListenerCreated(v: View, g: Goal, p: ServicePort)
    requires ValidView(v) && g.Wf() && g.Usable() && p in g.ports
    requires FindListener(v.listeners, p.ListenerName()) == None
    ensures ValidView(WithListener(v, p)) && Work(WithListener(v, p), g) == Work(v, g) - 1
    ensures Faithful(v, g) ==> Faithful(WithListener(v, p), g)
  {
    var w := WithListener(v, p);
    var x := Listener(v.nextId, p.ListenerName(), p.protocol, p.port);
    ListenerAppended(v.listeners, v.nextId, x);
    StaleAppend(v.listeners, x, g.Names());
    assert p.ListenerName() in g.Names();
    forall q | q in g.ports ensures Cost(w, g, q) == if q == p then 2 else Cost(v, g, q) {
      CostAfterCreate(v, g, p, q);
    }
    PortsCostDrop(v, w, g, g.ports, p);
  }

  lemma CostAfterCreate(v: View, g: Goal, p: ServicePort, q: ServicePort)
    requires ValidView(v) && g.Wf() && g.Usable() && p in g.ports && q in g.ports
    requires FindListener(v.listeners, p.ListenerName()) == None
    ensures Cost(WithListener(v, p), g, q) == if q == p then 2 else Cost(v, g, q)
  {
    var x := Listener(v.nextId, p.ListenerName(), p.protocol, p.port);
    FindListenerAppend(v.listeners, x, q.ListenerName());
    if q == p {
      assert FindPool(v.pools, x.id) == None;
    } else {
      OtherListener(v, g, p, q);
    }
  }

  lemma ListenerAppended(ls: seq<Listener>, nextId: nat, x: Listener)
    requires ValidListeners(ls, nextId) && x.id == nextId && FindListener(ls, x.name) == None
    ensures ValidListeners(ls + [x], nextId + 1)
  {
  }

  lemma PoolCreated(v: View, g: Goal, p: ServicePort)
    requires ValidView(v) && g.Wf() && g.Usable() && p in g.ports
    requires FindListener(v.listeners, p.ListenerName()).Some?
    requires FindPool(v.pools, FindListener(v.listeners, p.ListenerName()).value.id) == None
    ensures var w := WithPool(v, FindListener(v.listeners, p.ListenerName()).value.id);
            ValidView(w) && Work(w, g) < Work(v, g)
  {
    var l := FindListener(v.listeners, p.ListenerName()).value;
    var w := WithPool(v, l.id);
    PoolAppended(v.pools, v.nextId, l.id);
    assert ValidListeners(w.listeners, w.nextId);
    forall q | q in g.ports && q != p ensures Cost(w, g, q) == Cost(v, g, q) {
      CostBesidePool(v, g, p, q);
    }
    FindPoolAppend(v.pools, Pool(v.nextId, {l.id}, []), l.id);
    PortsCostDrop(v, w, g, g.ports, p);
  }

  lemma PoolAppended(ps: seq<Pool>, nextId: nat, listener: nat)
    requires ValidPools(ps, nextId) && listener < nextId && FindPool(ps, listener) == None
    ensures ValidPools(ps + [Pool(nextId, {listener}, [])], nextId + 1)
  {
  }

  lemma CostBesidePool(v: View, g: Goal, p: ServicePort, q: ServicePort)
    requires ValidView(v) && g.Wf() && g.Usable() && p in g.ports && q in g.ports && p != q
    requires FindListener(v.listeners, p.ListenerName()).Some?
    ensures Cost(WithPool(v, FindListener(v.listeners, p.ListenerName()).value.id), g, q) == Cost(v, g, q)
  {
    var l := FindListener(v.listeners, p.ListenerName()).value;
    OtherListener(v, g, p, q);
    var m := FindListener(v.listeners, q.ListenerName());
    if m.Some? {
      FindPoolAppend(v.pools, Pool(v.nextId, {l.id}, []), m.value.id);
    }
  }

  lemma OtherListener(v: View, g: Goal, p: ServicePort, q: ServicePort)
    requires ValidView(v) && g.Wf() && g.Usable() && p in g.ports && q in g.ports && p != q
    ensures p.ListenerName() != q.ListenerName()
    ensures FindListener(v.listeners, p.ListenerName()).Some? && FindListener(v.listeners, q.ListenerName()).Some? ==>
              FindListener(v.listeners, p.ListenerName()).value.id !=
              FindListener(v.listeners, q.ListenerName()).value.id
  {
    if p.ListenerName() == q.ListenerName() {
      ListenerNameInjective(p, q);
    }
  }

  lemma MembersUpdated(v: View, g: Goal, p: ServicePort, pool: Pool)
    requires ValidView(v) && g.Wf() && g.Usable() && p in g.ports
    requires FindListener(v.listeners, p.ListenerName()).Some?
    requires FindPool(v.pools, FindListener(v.listeners, p.ListenerName()).value.id) == Some(pool)
    requires !SameMembers(pool.members, g.Members(p))
    ensures var w := WithMembers(v, pool.id, g.Members(p));
            ValidView(w) && Work(w, g) == Work(v, g) - 1
  {
    var w := WithMembers(v, pool.id, g.Members(p));
    MembersValid(v.pools, v.nextId, pool.id, g.Members(p));
    assert ValidListeners(w.listeners, w.nextId);
    forall q | q in g.ports ensures Cost(w, g, q) == if q == p then 0 else Cost(v, g, q) {
      CostAfterMembers(v, g, p, q, pool);
    }
    PortsCostDrop(v, w, g, g.ports, p);
  }

  lemma MembersValid(ps: seq<Pool>, nextId: nat, pool: nat, ms: seq<Member>)
    requires ValidPools(ps, nextId) && DistinctAddresses(ms)
    ensures ValidPools(SetMembers(ps, pool, ms), nextId)
  {
  }

  lemma CostAfterMembers(v: View, g: Goal, p: ServicePort, q: ServicePort, pool: Pool)
    requires ValidView(v) && g.Wf() && g.Usable() && p in g.ports && q in g.ports
    requires FindListener(v.listeners, p.ListenerName()).Some?
    requires FindPool(v.pools, FindListener(v.listeners, p.ListenerName()).value.id) == Some(pool)
    ensures Cost(WithMembers(v, pool.id, g.Members(p)), g, q) == if q == p then 0 else Cost(v, g, q)
  {
    var m := FindListener(v.listeners, q.ListenerName());
    if m.Some? {
      FindPoolSetMembers(v.pools, pool.id, g.Members(p), m.value.id);
      if q != p {
        OtherListener(v, g, p, q);
      }
    }
  }

  lemma ListenerDeleted(v: View, g: Goal, l: Listener)
    requires ValidView(v) && l in v.listeners && l.name !in g.Names()
    ensures ValidView(WithoutListener(v, l.id)) && Work(WithoutListener(v, l.id), g) == Work(v, g) - 1
    ensures Faithful(v, g) ==> Faithful(WithoutListener(v, l.id), g)
  {
    var w := WithoutListener(v, l.id);
    DropListenerFacts(v.listeners, v.nextId, l.id);
    DropPoolsFacts(v.pools, v.nextId, l.id);
    StaleDrop(v.listeners, v.nextId, l, g.Names());
    forall q | q in g.ports ensures Cost(w, g, q) == Cost(v, g, q) {
      assert q.ListenerName() in g.Names();
      var m := FindListener(v.listeners, q.ListenerName());
      if m.Some? {
        assert m.value.id != l.id;
        FindListenerUnique(w.listeners, w.nextId, m.value);
        var pool := FindPool(v.pools, m.value.id);
        if pool.Some? {
          assert pool.value in w.pools;
          FindPoolUnique(w.pools, w.nextId, pool.value, m.value.id);
        }
      }
    }
    PortsCostSame(v, w, g, g.ports);
  }

  ghost predicate IndexOf(ls: seq<Listener>, byName: map<string, Listener>) {
    && (forall l :: l in ls ==> l.name in byName)
    && (forall n :: n in byName ==> byName[n] in ls && byName[n].name == n)
  }

  lemma IndexFinds(ls: seq<Listener>, nextId: nat, byName: map<string, Listener>, name: string)
    requires ValidListeners(ls, nextId) && IndexOf(ls, byName)
    ensures FindListener(ls, name) == if name in byName then Some(byName[name]) else None
  {
  }

  // ---------------------------------------------------------------- fixed points

  lemma {:induction false} StaleZero(ls: seq<Listener>, names: set<string>)
    ensures Stale(ls, names) == 0 <==> forall l :: l in ls ==> l.name in names
  {
    if ls != [] {
      StaleZero(ls[1..], names);
    }
  }

  lemma {:induction false} PortsCostZero(v: View, g: Goal, ps: seq<ServicePort>)
    ensures PortsCost(v, g, ps) == 0 <==> forall p :: p in ps ==> Cost(v, g, p) == 0
  {
    if ps != [] {
      PortsCostZero(v, g, ps[1..]);
    }
  }

  lemma CostZero(v: View, g: Goal, p: ServicePort)
    requires ValidView(v)
    ensures Cost(v, g, p) == 0 <==> Served(v, g, p)
  {
  }

  /** There is nothing left to do exactly when the balancer serves the Service as asked. */
  lemma NoWorkIffSettled(v: View, g: Goal)
    requires ValidView(v)
    ensures Work(v, g) == 0 <==> Settled(v, g)
  {
    PortsCostZero(v, g, g.ports);
    StaleZero(v.listeners, g.Names());
    forall p ensures Cost(v, g, p) == 0 <==> Served(v, g, p) {
      CostZero(v, g, p);
    }
    if forall p :: p in g.ports ==> Served(v, g, p) {
      NamesCovered(v, g);
    }
  }

  lemma NamesCovered(v: View, g: Goal)
    requires forall p :: p in g.ports ==> Served(v, g, p)
    ensures (set l | l in v.listeners :: l.name) == g.Names() <==> forall l :: l in v.listeners ==> l.name in g.Names()
  {
  }

  lemma {:induction false} WorkBound(v: View, g: Goal, ps: seq<ServicePort>)
    ensures PortsCost(v, g, ps) <= 3 * |ps|
  {
    if ps != [] {
      WorkBound(v, g, ps[1..]);
    }
  }

  lemma SubsetOfSameSize<T>(a: set<T>, b: set<T>)
    requires a <= b && |a| == |b|
    ensures a == b
  {
    var rest := b - a;
    assert b == a + rest;
  }

  /** The drift test of `syncMembers`, on maps keyed by address, compares member sets. */
  lemma DriftIsDifference(have: seq<Member>, byIP: map<string, Member>, g: Goal, p: ServicePort)
    requires DistinctAddresses(have)
    requires byIP.Keys == set m | m in have :: m.address
    requires forall m :: m in have ==> m.address in byIP && byIP[m.address] == m
    ensures SameMembers(have, g.Members(p)) <==>
            var desired := set ip | ip in g.ips;
            |byIP| == |desired| && forall ip :: ip in desired ==>
                ip in byIP && byIP[ip].port == p.nodePort && byIP[ip].subnet == g.subnet
  {
    var want := g.Members(p);
    var desired := set ip | ip in g.ips;
    assert forall i :: 0 <= i < |g.ips| ==> want[i] == Member(g.ips[i], p.nodePort, g.subnet) && want[i] in want;
    var haveSet, wantSet := set m | m in have, set m | m in want;
    if haveSet == wantSet {
      assert forall m :: m in have ==> m in haveSet;
      assert forall m :: m in want ==> m in wantSet;
      forall ip | ip in desired ensures ip in byIP && byIP[ip] == Member(ip, p.nodePort, g.subnet) {
        var i :| 0 <= i < |g.ips| && g.ips[i] == ip;
        assert want[i] in haveSet;
      }
      assert byIP.Keys == desired;
    }
    if |byIP.Keys| == |desired| && forall ip :: ip in desired ==>
        ip in byIP && byIP[ip].port == p.nodePort && byIP[ip].subnet == g.subnet {
      SubsetOfSameSize(desired, byIP.Keys);
      forall m | m in have ensures m in want {
        assert m.address in desired;
        var i :| 0 <= i < |g.ips| && g.ips[i] == m.address;
        assert want[i] == m;
      }
      forall m | m in want ensures m in have {
        assert m.address in byIP.Keys;
      }
    }
  }

  // ---------------------------------------------------------------- the remote balancer

  datatype Status = Active | PendingCreate | PendingUpdate | PendingDelete | Error

  datatype SyncError = UnsupportedProtocol(port: nat) | NoNodePort(port: nat) | ApiFailed
  datatype SyncResult = Pending | InSync | Failed(error: SyncError)

  function PortError(ports: seq<ServicePort>): Option<SyncError> {
    if ports == [] then None
    else if ports[0].protocol.Unsupported? then Some(UnsupportedProtocol(ports[0].port))
    else if ports[0].nodePort == 0 then Some(NoNodePort(ports[0].port))
    else PortError(ports[1..])
  }

  lemma {:induction false} PortErrorIff(g: Goal, ports: seq<ServicePort>)
    ensures PortError(ports) == None <==> forall p :: p in ports ==> p.Usable()
  {
    if ports != [] {
      assert ports[0] in ports && forall p :: p in ports ==> p == ports[0] || p in ports[1..];
      PortErrorIff(g, ports[1..]);
    }
  }

  /** The first port that cannot be served is reported, with its number. */
  lemma {:induction false} FirstBadPort(ports: seq<ServicePort>, i: nat)
    requires i < |ports| && !ports[i].Usable() && forall j :: 0 <= j < i ==> ports[j].Usable()
    ensures PortError(ports) == Some(if ports[i].protocol.Unsupported? then UnsupportedProtocol(ports[i].port)
                                     else NoNodePort(ports[i].port))
  {
    if i > 0 {
      assert ports[0].Usable();
      FirstBadPort(ports[1..], i - 1);
    }
  }

  /**
   One load balancer behind the Octavia API. Any request may fail, with or
   without taking effect, unless the service is `reliable`.
   */
  class Octavia {
    const reliable: bool
    var status: Status
    var view: View
    ghost var calls: nat

    constructor (reliable: bool, status: Status, view: View)
      ensures this.reliable == reliable && this.status == status && this.view == view && calls == 0
    {
      this.reliable, this.status, this.view, calls := reliable, status, view, 0;
    }

    /** Sends one change; a failed request may still have been carried out. */
    method Send(change: View) returns (ok: bool)
      modifies this
      ensures calls == old(calls) + 1
      ensures reliable ==> ok
      ensures (view == change && status == PendingUpdate) || (!ok && view == old(view) && status == old(status))
    {
      ok := Answered(reliable);
      calls := calls + 1;
      var carriedOut: bool := *;
      if ok || carriedOut {
        view, status := change, PendingUpdate;
      }
    }

    method SyncMembers(p: ServicePort, pool: Pool, g: Goal) returns (ok: bool, changed: bool)
      requires DistinctAddresses(pool.members)
      modifies this
      ensures reliable ==> ok
      ensures ok ==> (changed <==> !SameMembers(pool.members, g.Members(p)))
      ensures (ok && changed) ==>
                calls == old(calls) + 1 && status == PendingUpdate
                && view == WithMembers(old(view), pool.id, g.Members(p))
      ensures (ok && !changed) ==> calls == old(calls) && status == old(status) && view == old(view)
      ensures !ok ==> calls <= old(calls) + 1
      ensures !ok ==> (view == old(view) && status == old(status))
                      || (view == WithMembers(old(view), pool.id, g.Members(p)) && status == PendingUpdate
                          && !SameMembers(pool.members, g.Members(p)))
    {
      ok := Answered(reliable);
      changed := false;
      if !ok {
        return;
      }
      var currentByIP: map<string, Member> := map[];
      for i := 0 to |pool.members|
        invariant currentByIP.Keys == set m | m in pool.members[..i] :: m.address
        invariant forall m :: m in pool.members[..i] ==> m.address in currentByIP && currentByIP[m.address] == m
      {
        assert pool.members[..i + 1] == pool.members[..i] + [pool.members[i]];
        currentByIP := currentByIP[pool.members[i].address := pool.members[i]];
      }
      assert pool.members[..|pool.members|] == pool.members;
      var desired := set ip | ip in g.ips;
      var drift := |currentByIP| != |desired|
                   || exists ip :: ip in desired
                        && (ip !in currentByIP || currentByIP[ip].port != p.nodePort
                              || currentByIP[ip].subnet != g.subnet);
      DriftIsDifference(pool.members, currentByIP, g, p);
      if drift {
        ok := Send(WithMembers(view, pool.id, g.Members(p)));
        changed := ok;
      }
      if !ok {
        changed := true;
      }
    }

    /**
     One reconcile step: looks at the ports in order and sends at most one
     change. `InSync` is returned exactly when nothing had to be changed.
     */
    method SyncListenersAndMembers(g: Goal) returns (r: SyncResult)
      requires ValidView(view) && g.Wf()
      modifies this
      ensures ValidView(view) && calls <= old(calls) + 1 && (Faithful(old(view), g) ==> Faithful(view, g))
      ensures old(status) != Active ==>
                r == Pending && view == old(view) && status == old(status) && calls == old(calls)
      ensures old(status) == Active && PortError(g.ports).Some? ==>
                r == Failed(PortError(g.ports).value) && view == old(view) && status == Active && calls == old(calls)
      ensures r == InSync ==> Settled(view, g) && view == old(view) && status == Active && calls == old(calls)
      ensures r == Pending && old(status) == Active ==>
                Work(view, g) < Work(old(view), g) && status == PendingUpdate && calls == old(calls) + 1
      ensures r.Failed? ==>
                (view == old(view) && status == old(status))
                || (Work(view, g) < Work(old(view), g) && status == PendingUpdate)
      ensures reliable && old(status) == Active && PortError(g.ports) == None ==>
                r == if Settled(old(view), g) then InSync else Pending
    {
      if status != Active {
        return Pending;
      }
      NoWorkIffSettled(view, g);
      var bad := CheckPorts(g);
      if bad.Some? {
        return Failed(bad.value);
      }
      PortErrorIff(g, g.ports);
      var ok := Answered(reliable);
      if !ok {
        return Failed(ApiFailed);
      }
      var byName := ByName();
      var keep;
      r, keep := SyncPorts(g, byName);
      if r == InSync {
        r := DropOneStale(g, byName, keep);
      }
    }

    /** The loop over the Service ports; stops at the first port that needed a change. */
    method SyncPorts(g: Goal, byName: map<string, Listener>) returns (r: SyncResult, keep: set<string>)
      requires IndexOf(view.listeners, byName)
      requires ValidView(view) && g.Wf() && g.Usable() && status == Active
      modifies this
      ensures ValidView(view) && calls <= old(calls) + 1 && (Faithful(old(view), g) ==> Faithful(view, g))
      ensures r == InSync ==> keep == g.Names() && PortsCost(view, g, g.ports) == 0
                              && view == old(view) && status == Active && calls == old(calls)
      ensures r == Pending ==> Work(view, g) < Work(old(view), g) && status == PendingUpdate && calls == old(calls) + 1
      ensures r.Failed? ==>
                !reliable && ((view == old(view) && status == old(status))
                || (Work(view, g) < Work(old(view), g) && status == PendingUpdate))
    {
      keep := {};
      for n := 0 to |g.ports|
        invariant view == old(view) && status == Active && calls == old(calls)
        invariant DoneTo(view, g, n, keep)
      {
        keep := keep + {g.ports[n].ListenerName()};
        r := SyncPort(g, g.ports[n], byName);
        if r != InSync {
          return;
        }
        OneMoreDone(view, g, n, keep);
      }
      AllDone(view, g, keep);
      return InSync, keep;
    }

    /** The first ports are served, and their listeners are to be kept. */
    ghost predicate DoneTo(v: View, g: Goal, n: nat, keep: set<string>)
      requires n <= |g.ports|
    {
      keep == (set q | q in g.ports[..n] :: q.ListenerName()) && forall q :: q in g.ports[..n] ==> Cost(v, g, q) == 0
    }

    lemma OneMoreDone(v: View, g: Goal, n: nat, keep: set<string>)
      requires n < |g.ports| && Cost(v, g, g.ports[n]) == 0
      requires g.ports[n].ListenerName() in keep
      requires exists before :: DoneTo(v, g, n, before) && keep == before + {g.ports[n].ListenerName()}
      ensures DoneTo(v, g, n + 1, keep)
    {
      assert g.ports[..n + 1] == g.ports[..n] + [g.ports[n]];
    }

    lemma AllDone(v: View, g: Goal, keep: set<string>)
      requires DoneTo(v, g, |g.ports|, keep)
      ensures keep == g.Names() && PortsCost(v, g, g.ports) == 0
    {
      assert g.ports[..|g.ports|] == g.ports;
      PortsCostZero(v, g, g.ports);
    }

    method ByName() returns (byName: map<string, Listener>)
      requires ValidView(view)
      ensures IndexOf(view.listeners, byName)
    {
      byName := map[];
      for i := 0 to |view.listeners|
        invariant IndexOf(view.listeners[..i], byName)
      {
        assert view.listeners[..i + 1] == view.listeners[..i] + [view.listeners[i]];
        byName := byName[view.listeners[i].name := view.listeners[i]];
      }
      assert view.listeners[..|view.listeners|] == view.listeners;
    }

    method FindPoolForListener(listener: nat) returns (found: Option<Pool>)
      ensures found == FindPool(view.pools, listener)
    {
      for i := 0 to |view.pools|
        invariant FindPool(view.pools, listener) == FindPool(view.pools[i..], listener)
      {
        if listener in view.pools[i].listeners {
          return Some(view.pools[i]);
        }
      }
      return None;
    }

    method CheckPorts(g: Goal) returns (bad: Option<SyncError>)
      ensures bad == PortError(g.ports)
    {
      for n := 0 to |g.ports|
        invariant PortError(g.ports) == PortError(g.ports[n..])
      {
        var p := g.ports[n];
        if p.protocol.Unsupported? {
          return Some(UnsupportedProtocol(p.port));
        }
        if p.nodePort == 0 {
          return Some(NoNodePort(p.port));
        }
      }
      return None;
    }

    /** Brings one port a step closer: its listener, then its pool, then its members. */
    method SyncPort(g: Goal, p: ServicePort, byName: map<string, Listener>) returns (r: SyncResult)
      requires IndexOf(view.listeners, byName)
      requires ValidView(view) && g.Wf() && g.Usable() && p in g.ports && status == Active
      modifies this
      ensures ValidView(view) && calls <= old(calls) + 1 && (Faithful(old(view), g) ==> Faithful(view, g))
      ensures r == InSync ==> Cost(view, g, p) == 0 && view == old(view) && status == Active && calls == old(calls)
      ensures r == Pending ==> Work(view, g) < Work(old(view), g) && status == PendingUpdate && calls == old(calls) + 1
      ensures r.Failed? ==>
                !reliable && ((view == old(view) && status == old(status))
                || (Work(view, g) < Work(old(view), g) && status == PendingUpdate))
    {
      IndexFinds(view.listeners, view.nextId, byName, p.ListenerName());
      if p.ListenerName() !in byName {
        ListenerCreated(view, g, p);
        var ok := Send(WithListener(view, p));
        return if ok then Pending else Failed(ApiFailed);
      }
      var ok := Answered(reliable);
      if !ok {
        return Failed(ApiFailed);
      }
      var listener := byName[p.ListenerName()];
      var pool := FindPoolForListener(listener.id);
      if pool.None? {
        PoolCreated(view, g, p);
        ok := Send(WithPool(view, listener.id));
        return if ok then Pending else Failed(ApiFailed);
      }
      if !SameMembers(pool.value.members, g.Members(p)) {
        MembersUpdated(view, g, p, pool.value);
      }
      var changed;
      ok, changed := SyncMembers(p, pool.value, g);
      return if !ok then Failed(ApiFailed) else if changed then Pending else InSync;
    }

    /** Deletes one listener the Service no longer lists, whichever comes first. */
    method DropOneStale(g: Goal, byName: map<string, Listener>, keep: set<string>) returns (r: SyncResult)
      requires IndexOf(view.listeners, byName) && keep == g.Names()
      requires ValidView(view) && g.Wf() && status == Active && PortsCost(view, g, g.ports) == 0
      modifies this
      ensures ValidView(view) && calls <= old(calls) + 1 && (Faithful(old(view), g) ==> Faithful(view, g))
      ensures r == InSync ==>
                Work(view, g) == 0 && Settled(view, g) && view == old(view) && status == Active
                && calls == old(calls)
      ensures r == Pending ==> Work(view, g) < Work(old(view), g) && status == PendingUpdate && calls == old(calls) + 1
      ensures r.Failed? ==>
                !reliable && ((view == old(view) && status == old(status))
                || (Work(view, g) < Work(old(view), g) && status == PendingUpdate))
    {
      StaleZero(view.listeners, keep);
      var names := byName.Keys - keep;
      if names == {} {
        assert forall l :: l in view.listeners && l.name !in keep ==> l.name in names;
        NoWorkIffSettled(view, g);
        return InSync;
      }
      var name :| name in names;
      ListenerDeleted(view, g, byName[name]);
      var ok := Send(WithoutListener(view, byName[name].id));
      return if ok then Pending else Failed(ApiFailed);
    }

    /**
     The requeue loop: each round Octavia settles and the step runs again. With
     no failing request it stops after at most three changes per port and one
     per stale listener, with the balancer settled.
     */
    method Converge(g: Goal)
      requires ValidView(view) && g.Wf() && g.Usable() && reliable && status in {Active, PendingUpdate}
      modifies this
      ensures Settled(view, g) && status == Active && (Faithful(old(view), g) ==> Faithful(view, g))
      ensures BalancesJust(view, g.ports, g.ips, g.subnet)
      ensures calls <= old(calls) + 3 * |g.ports| + Stale(old(view).listeners, g.Names())
    {
      PortErrorIff(g, g.ports);
      WorkBound(view, g, g.ports);
      status := Active;
      var r := SyncListenersAndMembers(g);
      while r == Pending
        invariant Faithful(old(view), g) ==> Faithful(view, g)
        invariant ValidView(view) && calls + Work(view, g) <= old(calls) + Work(old(view), g)
        invariant r == Pending || (r == InSync && Settled(view, g) && status == Active)
        decreases r == Pending, Work(view, g)
      {
        status := Active;
        r := SyncListenersAndMembers(g);
      }
      SettledMeans(view, g);
    }
  }
}
