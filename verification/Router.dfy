/**
 Routing table of the edge router (talos-edge-router/internal/sniproxy/router.go).
 `Router` keeps two maps incrementally while Service events arrive in any
 order; `Expected` reads the whole event history at once. `Valid` ties the two
 together, so every method proved to keep `Valid` computes what the history says.
 */
module Routing {
  import opened Text

  datatype Listener = Listener(name: string, lbl: string, targetPort: string) {
    function TargetPortName(): string {
      if targetPort != "" then targetPort else name
    }
  }

  datatype Port = Port(name: string, port: nat)

  datatype Service = Service(namespace: string, name: string, labels: map<string, string>,
                             annotations: map<string, string>, ports: seq<Port>)
  {
    // Names are labels in the sense of section 2.3.1 of RFC 1035: no dots, no slashes.
    predicate WellNamed() {
      '.' !in name && '/' !in name && '.' !in namespace && '/' !in namespace
    }

    function Id(): ServiceId { ServiceId(namespace, name) }

    function Hostname(): string { Lookup(annotations, HOSTNAME_ANNOTATION) }
  }

  datatype ServiceId = ServiceId(namespace: string, name: string) {
    predicate WellNamed() {
      '.' !in name && '/' !in name && '.' !in namespace && '/' !in namespace
    }

    function Key(): string { namespace + "/" + name }

    function OwnerPrefix(): string { name + "." + namespace + ".svc:" }
  }

  const HOSTNAME_ANNOTATION := "talos.aenix.io/cluster-hostname"

  type Tables = map<string, map<string, string>>

  // ---------------------------------------------------------------- one claim

  /** The first port of that name is at `k`. */
  predicate FirstNamed(ports: seq<Port>, name: string, k: int) {
    0 <= k < |ports| && ports[k].name == name && forall j :: 0 <= j < k ==> ports[j].name != name
  }

  function PortNamed(ports: seq<Port>, name: string): (port: nat)
    ensures forall k :: FirstNamed(ports, name, k) ==> port == ports[k].port
    ensures (forall k :: 0 <= k < |ports| ==> ports[k].name != name) ==> port == 0
  {
    if ports == [] then 0
    else if ports[0].name == name then ports[0].port
    else
      assert forall k :: FirstNamed(ports, name, k) ==> FirstNamed(ports[1..], name, k - 1);
      PortNamed(ports[1..], name)
  }

  lemma {:induction false} SomeFirst(ports: seq<Port>, name: string) returns (k: nat)
    requires exists j :: 0 <= j < |ports| && ports[j].name == name
    ensures FirstNamed(ports, name, k)
  {
    if ports[0].name == name {
      k := 0;
    } else {
      k := SomeFirst(ports[1..], name);
      k := k + 1;
    }
  }

  /** The port a Service offers for a lbl: 0 when it does not take part. */
  function OfferedPort(svc: Service, portByLabel: map<string, string>, lbl: string): nat {
    if svc.Hostname() != "" && Lookup(svc.labels, lbl) == "true" && lbl in portByLabel
    then PortNamed(svc.ports, portByLabel[lbl]) else 0
  }

  predicate Claims(svc: Service, portByLabel: map<string, string>, lbl: string, host: string) {
    host == svc.Hostname() && OfferedPort(svc, portByLabel, lbl) != 0
  }

  /**
   Who claims a host, and what is routed to, read off the Service: its annotation names the
   host, its label says "true", and the first port of the listener's port name is not zero;
   that port is the one printed.
   */
  lemma ClaimByPorts(svc: Service, portByLabel: map<string, string>, lbl: string, host: string)
    ensures Claims(svc, portByLabel, lbl, host) <==>
            && host != "" && HOSTNAME_ANNOTATION in svc.annotations && svc.annotations[HOSTNAME_ANNOTATION] == host
            && lbl in svc.labels && svc.labels[lbl] == "true" && lbl in portByLabel
            && exists k :: FirstNamed(svc.ports, portByLabel[lbl], k) && svc.ports[k].port != 0
    ensures Claims(svc, portByLabel, lbl, host) ==>
              forall k :: FirstNamed(svc.ports, portByLabel[lbl], k) ==>
                  Target(svc, portByLabel, lbl) ==
                  svc.name + "." + svc.namespace + ".svc:" + Decimal(svc.ports[k].port)
  {
    if Claims(svc, portByLabel, lbl, host) {
      var k := SomeFirst(svc.ports, portByLabel[lbl]);
    }
  }

  lemma ClaimsInAdd(svc: Service, portByLabel: map<string, string>, labels: set<string>, lbl: string)
    ensures ClaimsIn(svc, portByLabel, labels + {lbl}) ==
            if OfferedPort(svc, portByLabel, lbl) != 0 then ClaimsIn(svc, portByLabel, labels)[lbl := svc.Hostname()]
            else ClaimsIn(svc, portByLabel, labels)
  {
  }

  function Target(svc: Service, portByLabel: map<string, string>, lbl: string): string {
    svc.Id().OwnerPrefix() + Decimal(OfferedPort(svc, portByLabel, lbl))
  }

  function ClaimsOf(svc: Service, portByLabel: map<string, string>): map<string, string> {
    ClaimsIn(svc, portByLabel, portByLabel.Keys)
  }

  function ClaimsIn(svc: Service, portByLabel: map<string, string>, labels: set<string>): map<string, string> {
    map lbl | lbl in labels && OfferedPort(svc, portByLabel, lbl) != 0 :: svc.Hostname()
  }

  /** The prefix test of `upsert` and `delete` recognises exactly the Service's own backends. */
  lemma OwnerPrefixIsIdentity(me: ServiceId, other: ServiceId, port: nat)
    requires me.WellNamed() && other.WellNamed()
    ensures me.OwnerPrefix() <= other.OwnerPrefix() + Decimal(port) <==> me == other
  {
    var mine, theirs := me.OwnerPrefix(), other.OwnerPrefix() + Decimal(port);
    if mine <= theirs {
      var rest := theirs[|mine|..];
      assert mine == me.name + ['.'] + (me.namespace + ['.'] + "svc:");
      assert theirs == mine + rest == me.name + ['.'] + (me.namespace + ['.'] + ("svc:" + rest));
      assert theirs == other.name + ['.'] + (other.namespace + ['.'] + ("svc:" + Decimal(port)));
      CutUnique(me.name, me.namespace + ['.'] + ("svc:" + rest),
                other.name, other.namespace + ['.'] + ("svc:" + Decimal(port)), '.');
      CutUnique(me.namespace, "svc:" + rest, other.namespace, "svc:" + Decimal(port), '.');
    }
  }

  lemma KeyInjective(a: ServiceId, b: ServiceId)
    requires a.WellNamed() && b.WellNamed()
    ensures a.Key() == b.Key() <==> a == b
  {
    if a.Key() == b.Key() {
      assert a.Key() == a.namespace + ['/'] + a.name;
      assert b.Key() == b.namespace + ['/'] + b.name;
      CutUnique(a.namespace, a.name, b.namespace, b.name, '/');
    }
  }

  // ---------------------------------------------------------------- history

  datatype Event = Upsert(svc: Service) | Delete(id: ServiceId) {
    function Subject(): ServiceId {
      match this case Upsert(s) => s.Id() case Delete(i) => i
    }

    predicate Claim(portByLabel: map<string, string>, lbl: string, host: string) {
      Upsert? && Claims(svc, portByLabel, lbl, host)
    }
  }

  ghost predicate WellNamedHistory(h: seq<Event>) {
    forall i :: 0 <= i < |h| ==> h[i].Subject().WellNamed()
  }

  /** `h[i]` is the most recent claim of (label, host). */
  ghost predicate IsLastClaim(h: seq<Event>, portByLabel: map<string, string>, lbl: string, host: string, i: int) {
    && 0 <= i < |h|
    && h[i].Claim(portByLabel, lbl, host)
    && forall j :: i < j < |h| ==> !h[j].Claim(portByLabel, lbl, host)
  }

  ghost predicate Untouched(h: seq<Event>, i: int)
    requires 0 <= i < |h|
  {
    forall j :: i < j < |h| ==> h[j].Subject() != h[i].Subject()
  }

  /** `h[i]` decides (label, host): the latest claim, by a Service with no later event. */
  ghost predicate Decides(h: seq<Event>, portByLabel: map<string, string>, lbl: string, host: string, i: int) {
    IsLastClaim(h, portByLabel, lbl, host, i) && Untouched(h, i)
  }

  /**
   The answer read off the history: the backend of the most recent claim of
   (label, host), provided that Service has had no later event.
   */
  ghost function Expected(h: seq<Event>, portByLabel: map<string, string>, lbl: string, host: string): Option<string> {
    if exists i :: Decides(h, portByLabel, lbl, host, i) then
      var i :| Decides(h, portByLabel, lbl, host, i);
      Some(Target(h[i].svc, portByLabel, lbl))
    else None
  }

  lemma LastClaimUnique(h: seq<Event>, portByLabel: map<string, string>, lbl: string, host: string, i: int, j: int)
    requires IsLastClaim(h, portByLabel, lbl, host, i) && IsLastClaim(h, portByLabel, lbl, host, j)
    ensures i == j
  {
  }

  /** What the latest event of a Service claims. */
  ghost function LatestClaims(h: seq<Event>, portByLabel: map<string, string>, id: ServiceId): map<string, string> {
    if h == [] then map[]
    else
      var last := h[|h| - 1];
      if last.Subject() != id then LatestClaims(h[..|h| - 1], portByLabel, id)
      else if last.Upsert? then ClaimsOf(last.svc, portByLabel)
      else map[]
  }

  lemma {:induction false} LatestClaimsAt(h: seq<Event>, portByLabel: map<string, string>, i: int)
    requires 0 <= i < |h| && Untouched(h, i)
    ensures LatestClaims(h, portByLabel, h[i].Subject()) ==
            if h[i].Upsert? then ClaimsOf(h[i].svc, portByLabel) else map[]
  {
    if i < |h| - 1 {
      var g := h[..|h| - 1];
      assert forall j :: 0 <= j < |g| ==> g[j] == h[j];
      LatestClaimsAt(g, portByLabel, i);
    }
  }

  lemma DecidesStep(h: seq<Event>, e: Event, portByLabel: map<string, string>, lbl: string, host: string, i: int)
    ensures e.Claim(portByLabel, lbl, host) ==> (Decides(h + [e], portByLabel, lbl, host, i) <==> i == |h|)
    ensures !e.Claim(portByLabel, lbl, host) ==>
              (Decides(h + [e], portByLabel, lbl, host, i) <==>
               Decides(h, portByLabel, lbl, host, i) && h[i].Subject() != e.Subject())
  {
    var g := h + [e];
    assert g[|h|] == e && forall j :: 0 <= j < |h| ==> g[j] == h[j];
    if Decides(h, portByLabel, lbl, host, i) && h[i].Subject() != e.Subject() && !e.Claim(portByLabel, lbl, host) {
      assert forall j :: i < j < |g| ==> !g[j].Claim(portByLabel, lbl, host);
    }
    if Decides(g, portByLabel, lbl, host, i) && !e.Claim(portByLabel, lbl, host) {
      assert forall j :: i < j < |h| ==> !g[j].Claim(portByLabel, lbl, host) && g[j].Subject() != g[i].Subject();
    }
  }

  /** One more event moves the answer in one of three ways. */
  lemma ExpectedStep(h: seq<Event>, e: Event, portByLabel: map<string, string>, lbl: string, host: string)
    ensures var before, after := Expected(h, portByLabel, lbl, host), Expected(h + [e], portByLabel, lbl, host);
            if e.Claim(portByLabel, lbl, host) then after == Some(Target(e.svc, portByLabel, lbl))
            else if exists i :: Decides(h, portByLabel, lbl, host, i) && h[i].Subject() == e.Subject()
            then after == None
            else after == before
  {
    var g := h + [e];
    DecidesStep(h, e, portByLabel, lbl, host, |h|);
    if i :| Decides(h, portByLabel, lbl, host, i) {
      DecidesStep(h, e, portByLabel, lbl, host, i);
      assert g[i] == h[i];
    }
    if k :| Decides(g, portByLabel, lbl, host, k) {
      DecidesStep(h, e, portByLabel, lbl, host, k);
      forall i | Decides(h, portByLabel, lbl, host, i) && k < |h| ensures i == k {
        LastClaimUnique(h, portByLabel, lbl, host, i, k);
      }
    }
  }

  // ---------------------------------------------------------------- whole histories

  /** `svc` is what the latest event of its Service says. */
  ghost predicate Live(h: seq<Event>, svc: Service) {
    exists i :: 0 <= i < |h| && h[i] == Event.Upsert(svc) && Untouched(h, i)
  }

  lemma LiveUnique(h: seq<Event>, s: Service, t: Service)
    requires Live(h, s) && Live(h, t) && s.Id() == t.Id()
    ensures s == t
  {
  }

  function Upserts(order: seq<Service>): seq<Event> {
    seq(|order|, i requires 0 <= i < |order| => Event.Upsert(order[i]))
  }

  lemma {:induction false} LastClaimant(order: seq<Service>, portByLabel: map<string, string>, lbl: string,
                                        host: string) returns (j: nat)
    requires exists s :: s in order && Claims(s, portByLabel, lbl, host)
    ensures j < |order| && Claims(order[j], portByLabel, lbl, host)
    ensures forall k :: j < k < |order| ==> !Claims(order[k], portByLabel, lbl, host)
  {
    hide Claims;
    var last := |order| - 1;
    if Claims(order[last], portByLabel, lbl, host) {
      j := last;
    } else {
      assert forall s :: s in order ==> s == order[last] || s in order[..last];
      j := LastClaimant(order[..last], portByLabel, lbl, host);
    }
  }

  /**
   One resync pass, an upsert of every live Service in any order: each host is
   served exactly when a live Service claims it, and by a live claimant.
   Hosts lost when a contended winner left are back.
   */
  lemma ResyncRestores(h: seq<Event>, order: seq<Service>, portByLabel: map<string, string>, lbl: string, host: string)
    requires forall s :: s in order <==> Live(h, s)
    ensures var answer := Expected(h + Upserts(order), portByLabel, lbl, host);
            && (answer.Some? <==> exists s :: Live(h, s) && Claims(s, portByLabel, lbl, host))
            && (answer.Some? ==>
                  exists s :: && Live(h, s) && Claims(s, portByLabel, lbl, host)
                              && answer.value == Target(s, portByLabel, lbl))
  {
    hide Claims, Target;
    var g := h + Upserts(order);
    assert forall k :: 0 <= k < |h| ==> g[k] == h[k];
    assert forall k :: 0 <= k < |order| ==> g[|h| + k] == Event.Upsert(order[k]);
    if exists s :: Live(h, s) && Claims(s, portByLabel, lbl, host) {
      var j := LastClaimant(order, portByLabel, lbl, host);
      forall k | |h| + j < k < |g|
        ensures !g[k].Claim(portByLabel, lbl, host) && g[k].Subject() != order[j].Id()
      {
        assert g[k] == Event.Upsert(order[k - |h|]);
        if order[k - |h|].Id() == order[j].Id() {
          LiveUnique(h, order[k - |h|], order[j]);
        }
      }
      assert Decides(g, portByLabel, lbl, host, |h| + j);
    }
    forall i: nat | i < |h| && h[i].Upsert? ensures !Untouched(g, i) {
      OldUpsertsOverruled(h, order, i);
    }
    forall i | Decides(g, portByLabel, lbl, host, i)
      ensures Live(h, g[i].svc) && Claims(g[i].svc, portByLabel, lbl, host)
    {
      assert order[i - |h|] in order;
    }
  }

  lemma OldUpsertsOverruled(h: seq<Event>, order: seq<Service>, i: nat)
    requires forall s :: s in order <==> Live(h, s)
    requires i < |h| && h[i].Upsert?
    ensures !Untouched(h + Upserts(order), i)
  {
    var g := h + Upserts(order);
    if Untouched(h, i) {
      assert Live(h, h[i].svc);
      var k :| 0 <= k < |order| && order[k] == h[i].svc;
      assert g[|h| + k].Subject() == g[i].Subject();
    } else {
      var j :| i < j < |h| && h[j].Subject() == h[i].Subject();
      assert g[j].Subject() == g[i].Subject();
    }
  }

  /** A winner that leaves takes the host down although the losing claimant is still live. */
  lemma ContendedHostIsLost(h: seq<Event>, a: Service, b: Service, portByLabel: map<string, string>, lbl: string,
                            host: string)
    requires Claims(a, portByLabel, lbl, host) && Claims(b, portByLabel, lbl, host) && a.Id() != b.Id()
    ensures var g := h + [Event.Upsert(a), Event.Upsert(b), Event.Delete(b.Id())];
            Live(g, a) && Expected(g, portByLabel, lbl, host) == None
  {
    var g := h + [Event.Upsert(a), Event.Upsert(b), Event.Delete(b.Id())];
    assert g[|h|] == Event.Upsert(a) && g[|h| + 1] == Event.Upsert(b) && g[|h| + 2] == Event.Delete(b.Id());
    assert Untouched(g, |h|);
    assert g[|h| + 1].Claim(portByLabel, lbl, host);
    assert g[|h| + 2].Subject() == g[|h| + 1].Subject();
    assert forall i :: !Decides(g, portByLabel, lbl, host, i);
  }

  /** Exactly when a host with a live claimant is missing: its last claimant has moved on. */
  lemma MissingExactlyWhen(h: seq<Event>, portByLabel: map<string, string>, lbl: string, host: string, last: int)
    requires IsLastClaim(h, portByLabel, lbl, host, last)
    ensures Expected(h, portByLabel, lbl, host) == None <==> !Live(h, h[last].svc)
    ensures Live(h, h[last].svc) ==> Expected(h, portByLabel, lbl, host) == Some(Target(h[last].svc, portByLabel, lbl))
  {
    forall i | IsLastClaim(h, portByLabel, lbl, host, i) ensures i == last {
      LastClaimUnique(h, portByLabel, lbl, host, i, last);
    }
    if Live(h, h[last].svc) {
      var i :| 0 <= i < |h| && h[i] == Event.Upsert(h[last].svc) && Untouched(h, i);
      assert h[i].Claim(portByLabel, lbl, host) && !(last < i) && !(i < last);
      assert Decides(h, portByLabel, lbl, host, last);
    } else {
      assert h[last] == Event.Upsert(h[last].svc);
      assert !Untouched(h, last);
    }
  }

  /** An event changes an entry only by claiming it, or when its own Service held it. */
  lemma EventsLeaveOthersAlone(h: seq<Event>, e: Event, portByLabel: map<string, string>, lbl: string, host: string)
    requires WellNamedHistory(h) && e.Subject().WellNamed()
    requires Expected(h + [e], portByLabel, lbl, host) != Expected(h, portByLabel, lbl, host)
    ensures e.Claim(portByLabel, lbl, host)
            || (Expected(h, portByLabel, lbl, host).Some?
                  && e.Subject().OwnerPrefix() <= Expected(h, portByLabel, lbl, host).value)
  {
    ExpectedStep(h, e, portByLabel, lbl, host);
    if i :| Decides(h, portByLabel, lbl, host, i) && h[i].Subject() == e.Subject() {
      forall j | Decides(h, portByLabel, lbl, host, j) ensures j == i {
        LastClaimUnique(h, portByLabel, lbl, host, i, j);
      }
    }
  }

  // ---------------------------------------------------------------- the router

  /** Listeners that share a label: the last one decides the port name. */
  function PortTable(listeners: seq<Listener>): map<string, string> {
    if listeners == [] then map[]
    else
      var last := listeners[|listeners| - 1];
      PortTable(listeners[..|listeners| - 1])[last.lbl := last.TargetPortName()]
  }

  /** The last listener with a label names the port: its target port, or else itself. */
  lemma {:induction false} LastListenerDecides(listeners: seq<Listener>, n: nat)
    requires n < |listeners| && forall m :: n < m < |listeners| ==> listeners[m].lbl != listeners[n].lbl
    ensures listeners[n].lbl in PortTable(listeners)
    ensures PortTable(listeners)[listeners[n].lbl] ==
            if listeners[n].targetPort != "" then listeners[n].targetPort else listeners[n].name
  {
    if n < |listeners| - 1 {
      LastListenerDecides(listeners[..|listeners| - 1], n);
    }
  }

  function Get(tables: Tables, lbl: string, host: string): Option<string> {
    if lbl in tables && host in tables[lbl] then Some(tables[lbl][host]) else None
  }

  /** One table after the claims of a Service are entered. */
  function Routed(table: map<string, string>, svc: Service, portByLabel: map<string, string>,
                  lbl: string): map<string, string> {
    if OfferedPort(svc, portByLabel, lbl) == 0 then table
    else table[svc.Hostname() := Target(svc, portByLabel, lbl)]
  }

  /** One table after an entry is dropped, if it carries the Service's own prefix. */
  function DropOwn(table: map<string, string>, host: string, id: ServiceId): map<string, string> {
    if host in table && id.OwnerPrefix() <= table[host] then table - {host} else table
  }

  function Pruned(tables: Tables, id: ServiceId, prior: map<string, string>, next: map<string, string>,
                  lbl: string): map<string, string>
    requires lbl in tables
  {
    if lbl in prior && Lookup(next, lbl) != prior[lbl] then DropOwn(tables[lbl], prior[lbl], id) else tables[lbl]
  }

  /** The step of one table entry that both handlers perform agrees with the history. */
  lemma EntryStep(h: seq<Event>, e: Event, portByLabel: map<string, string>, lbl: string, host: string,
                  cur: Option<string>, next: Option<string>)
    requires WellNamedHistory(h) && e.Subject().WellNamed() && lbl in portByLabel
    requires cur == Expected(h, portByLabel, lbl, host)
    requires var prior := LatestClaims(h, portByLabel, e.Subject());
             next == if e.Claim(portByLabel, lbl, host) then Some(Target(e.svc, portByLabel, lbl))
                     else if lbl in prior && prior[lbl] == host && cur.Some?
                         && e.Subject().OwnerPrefix() <= cur.value then None
                     else cur
    ensures next == Expected(h + [e], portByLabel, lbl, host)
  {
    ExpectedStep(h, e, portByLabel, lbl, host);
    if i :| Decides(h, portByLabel, lbl, host, i) {
      forall j | Decides(h, portByLabel, lbl, host, j) ensures j == i {
        LastClaimUnique(h, portByLabel, lbl, host, i, j);
      }
      OwnerPrefixIsIdentity(e.Subject(), h[i].Subject(), OfferedPort(h[i].svc, portByLabel, lbl));
      LatestClaimsAt(h, portByLabel, i);
    }
  }

  /** The tables agree with the history. */
  ghost predicate Agrees(tables: Tables, h: seq<Event>, portByLabel: map<string, string>) {
    && tables.Keys == portByLabel.Keys
    && forall lbl, host :: lbl in tables ==> Get(tables, lbl, host) == Expected(h, portByLabel, lbl, host)
  }

  lemma AgreesAfterUpsert(h: seq<Event>, svc: Service, portByLabel: map<string, string>, before: Tables,
                          merged: Tables, after: Tables)
    requires WellNamedHistory(h) && svc.WellNamed() && Agrees(before, h, portByLabel)
    requires merged.Keys == after.Keys == before.Keys
    requires forall lbl :: lbl in before ==> merged[lbl] == Routed(before[lbl], svc, portByLabel, lbl)
    requires forall lbl :: lbl in before ==>
               after[lbl] == Pruned(merged, svc.Id(), LatestClaims(h, portByLabel, svc.Id()),
                   ClaimsOf(svc, portByLabel), lbl)
    ensures Agrees(after, h + [Event.Upsert(svc)], portByLabel)
  {
    var e := Event.Upsert(svc);
    LatestClaimsNonEmpty(h, portByLabel, svc.Id());
    forall lbl, host | lbl in after ensures Get(after, lbl, host) == Expected(h + [e], portByLabel, lbl, host) {
      UpsertEntry(svc, portByLabel, before, merged, after, lbl, host, LatestClaims(h, portByLabel, svc.Id()));
      EntryStep(h, e, portByLabel, lbl, host, Get(before, lbl, host), Get(after, lbl, host));
    }
  }

  /** The two loops of `upsert` seen on a single entry. */
  lemma UpsertEntry(svc: Service, portByLabel: map<string, string>, before: Tables, merged: Tables, after: Tables,
                    lbl: string, host: string, prior: map<string, string>)
    requires merged.Keys == after.Keys == before.Keys == portByLabel.Keys && lbl in before
    requires merged[lbl] == Routed(before[lbl], svc, portByLabel, lbl)
    requires after[lbl] == Pruned(merged, svc.Id(), prior, ClaimsOf(svc, portByLabel), lbl)
    requires lbl in prior ==> prior[lbl] != ""
    ensures Get(after, lbl, host) ==
            if Claims(svc, portByLabel, lbl, host) then Some(Target(svc, portByLabel, lbl))
            else if lbl in prior && prior[lbl] == host && Get(before, lbl, host).Some?
                    && svc.Id().OwnerPrefix() <= Get(before, lbl, host).value then None
            else Get(before, lbl, host)
  {
  }

  lemma AgreesAfterDelete(h: seq<Event>, id: ServiceId, portByLabel: map<string, string>, before: Tables, after: Tables)
    requires WellNamedHistory(h) && id.WellNamed() && Agrees(before, h, portByLabel)
    requires after.Keys == before.Keys
    requires var prior := LatestClaims(h, portByLabel, id);
             forall lbl :: lbl in before ==>
                 after[lbl] == if lbl in prior then DropOwn(before[lbl], prior[lbl], id) else before[lbl]
    ensures Agrees(after, h + [Event.Delete(id)], portByLabel)
  {
    var e := Event.Delete(id);
    forall lbl, host | lbl in after ensures Get(after, lbl, host) == Expected(h + [e], portByLabel, lbl, host) {
      EntryStep(h, e, portByLabel, lbl, host, Get(before, lbl, host), Get(after, lbl, host));
    }
  }

  lemma {:induction false} LatestClaimsNonEmpty(h: seq<Event>, portByLabel: map<string, string>, id: ServiceId)
    ensures forall lbl :: lbl in LatestClaims(h, portByLabel, id) ==> LatestClaims(h, portByLabel, id)[lbl] != ""
  {
    if h != [] {
      LatestClaimsNonEmpty(h[..|h| - 1], portByLabel, id);
    }
  }

  class Router {
    var backends: Tables
    var owned: map<string, map<string, string>>
    var portByLabel: map<string, string>
    ghost var history: seq<Event>

    /** The incremental maps agree with the history. */
    ghost predicate Valid()
      reads this
    {
      && WellNamedHistory(history)
      && Agrees(backends, history, portByLabel)
      && (forall id: ServiceId :: id.WellNamed() ==> OwnedBy(id) == LatestClaims(history, portByLabel, id))
    }

    function OwnedBy(id: ServiceId): map<string, string>
      reads this
    {
      if id.Key() in owned then owned[id.Key()] else map[]
    }

    constructor (listeners: seq<Listener>)
      ensures Valid() && history == []
      ensures portByLabel == PortTable(listeners)
    {
      backends, owned, portByLabel, history := map[], map[], map[], [];
      new;
      for n := 0 to |listeners|
        invariant backends.Keys == portByLabel.Keys && owned == map[] && history == []
        invariant portByLabel == PortTable(listeners[..n])
        invariant forall lbl :: lbl in backends ==> backends[lbl] == map[]
      {
        assert listeners[..n + 1][..n] == listeners[..n];
        backends := backends[listeners[n].lbl := map[]];
        portByLabel := portByLabel[listeners[n].lbl := listeners[n].TargetPortName()];
      }
      assert listeners[..|listeners|] == listeners;
    }

    /** Registers what the Service claims now and drops what it no longer claims. */
    method Upsert(svc: Service)
      requires Valid() && svc.WellNamed()
      modifies this
      ensures Valid() && portByLabel == old(portByLabel)
      ensures history == old(history) + [Event.Upsert(svc)]
    {
      var key := svc.namespace + "/" + svc.name;
      var prior := if key in owned then owned[key] else map[];
      var next := EnterClaims(svc);
      ghost var merged := backends;
      DropStale(svc.Id(), prior, next);
      owned := if next == map[] then owned - {key} else owned[key := next];
      history := history + [Event.Upsert(svc)];
      AgreesAfterUpsert(old(history), svc, portByLabel, old(backends), merged, backends);
      OwnedStep(old(history), Event.Upsert(svc), old(owned), next);
    }

    /** The first loop of `upsert`, over the listener labels in any order. */
    method EnterClaims(svc: Service) returns (next: map<string, string>)
      requires backends.Keys == portByLabel.Keys
      modifies this`backends
      ensures backends.Keys == portByLabel.Keys
      ensures next == ClaimsOf(svc, portByLabel)
      ensures forall lbl :: lbl in backends ==> backends[lbl] == Routed(old(backends)[lbl], svc, portByLabel, lbl)
    {
      next := map[];
      if svc.Hostname() == "" {
        return;
      }
      var todo := backends.Keys;
      while todo != {}
        invariant backends.Keys == portByLabel.Keys && todo <= backends.Keys
        invariant forall lbl :: lbl in todo ==> backends[lbl] == old(backends)[lbl]
        invariant forall lbl :: lbl in backends && lbl !in todo ==>
                    backends[lbl] == Routed(old(backends)[lbl], svc, portByLabel, lbl)
        invariant next == ClaimsIn(svc, portByLabel, portByLabel.Keys - todo)
        decreases todo
      {
        var lbl :| lbl in todo;
        ghost var seen := portByLabel.Keys - todo;
        todo := todo - {lbl};
        var claimed := EnterClaim(svc, lbl);
        if claimed {
          next := next[lbl := svc.Hostname()];
        }
        ClaimsInAdd(svc, portByLabel, seen, lbl);
        assert portByLabel.Keys - todo == seen + {lbl};
      }
    }

    method EnterClaim(svc: Service, lbl: string) returns (claimed: bool)
      requires lbl in backends && lbl in portByLabel && svc.Hostname() != ""
      modifies this`backends
      ensures claimed <==> OfferedPort(svc, portByLabel, lbl) != 0
      ensures backends == old(backends)[lbl := Routed(old(backends)[lbl], svc, portByLabel, lbl)]
    {
      if Lookup(svc.labels, lbl) != "true" {
        return false;
      }
      var port := ServicePort(svc, portByLabel[lbl]);
      if port == 0 {
        return false;
      }
      var backend := svc.name + "." + svc.namespace + ".svc:" + Decimal(port);
      assert backend == Target(svc, portByLabel, lbl);
      if svc.Hostname() !in backends[lbl] || backends[lbl][svc.Hostname()] != backend {
        backends := backends[lbl := backends[lbl][svc.Hostname() := backend]];
      }
      assert backends[lbl] == Routed(old(backends)[lbl], svc, portByLabel, lbl);
      return true;
    }

    /** The second loop of `upsert`, over the labels held before in any order. */
    method DropStale(id: ServiceId, prior: map<string, string>, next: map<string, string>)
      modifies this`backends
      ensures backends.Keys == old(backends.Keys)
      ensures forall lbl :: lbl in backends ==> backends[lbl] == Pruned(old(backends), id, prior, next, lbl)
    {
      var ownerPrefix := id.name + "." + id.namespace + ".svc:";
      var labels := prior.Keys;
      while labels != {}
        invariant backends.Keys == old(backends.Keys) && labels <= prior.Keys
        invariant forall lbl :: lbl in labels && lbl in backends ==> backends[lbl] == old(backends)[lbl]
        invariant forall lbl :: lbl in backends && lbl !in labels ==>
                  backends[lbl] == Pruned(old(backends), id, prior, next, lbl)
        decreases labels
      {
        var lbl :| lbl in labels;
        labels := labels - {lbl};
        if Lookup(next, lbl) != prior[lbl] && lbl in backends {
          var oldHost := prior[lbl];
          if oldHost in backends[lbl] && ownerPrefix <= backends[lbl][oldHost] {
            backends := backends[lbl := backends[lbl] - {oldHost}];
          }
        }
      }
    }

    /** Drops every entry the Service still holds. */
    method Delete(id: ServiceId)
      requires Valid() && id.WellNamed()
      modifies this
      ensures Valid() && portByLabel == old(portByLabel)
      ensures history == old(history) + [Event.Delete(id)]
    {
      var key := id.namespace + "/" + id.name;
      var ownerPrefix := id.name + "." + id.namespace + ".svc:";
      if key in owned {
        var prior := owned[key];
        var labels := prior.Keys;
        while labels != {}
          invariant portByLabel == old(portByLabel) && owned == old(owned) && history == old(history)
          invariant backends.Keys == portByLabel.Keys && labels <= prior.Keys
          invariant forall lbl :: lbl in labels && lbl in backends ==> backends[lbl] == old(backends)[lbl]
          invariant forall lbl :: lbl in backends && lbl !in labels ==>
                      backends[lbl] == if lbl in prior
                          then DropOwn(old(backends)[lbl], prior[lbl], id) else old(backends)[lbl]
          decreases labels
        {
          var lbl :| lbl in labels;
          labels := labels - {lbl};
          if lbl in backends {
            var host := prior[lbl];
            if host in backends[lbl] && ownerPrefix <= backends[lbl][host] {
              backends := backends[lbl := backends[lbl] - {host}];
            }
          }
        }
        owned := owned - {key};
      }
      history := history + [Event.Delete(id)];
      AgreesAfterDelete(old(history), id, portByLabel, old(backends), backends);
      OwnedStep(old(history), Event.Delete(id), old(owned), map[]);
    }

    /** The upstream of a label and SNI name is the one the history names. */
    method Backend(lbl: string, host: string) returns (backend: string, ok: bool)
      requires Valid()
      ensures ok ==> Expected(history, portByLabel, lbl, host) == Some(backend)
      ensures ok ==> exists i, k :: && Decides(history, portByLabel, lbl, host, i)
                                    && FirstNamed(history[i].svc.ports, portByLabel[lbl], k)
                                    && backend == history[i].svc.name + "." + history[i].svc.namespace + ".svc:"
                                                  + Decimal(history[i].svc.ports[k].port)
      ensures !ok ==> backend == "" && (lbl in portByLabel ==> Expected(history, portByLabel, lbl, host) == None)
    {
      assert lbl in backends ==> Get(backends, lbl, host) == Expected(history, portByLabel, lbl, host);
      DecidedByPort(lbl, host);
      if lbl !in backends || host !in backends[lbl] {
        return "", false;
      }
      return backends[lbl][host], true;
    }

    lemma DecidedByPort(lbl: string, host: string)
      ensures Expected(history, portByLabel, lbl, host).Some? ==>
                exists i, k :: && Decides(history, portByLabel, lbl, host, i)
                               && FirstNamed(history[i].svc.ports, portByLabel[lbl], k)
                               && Expected(history, portByLabel, lbl, host).value ==
                                  history[i].svc.name + "." + history[i].svc.namespace + ".svc:"
                                  + Decimal(history[i].svc.ports[k].port)
    {
      if i :| Decides(history, portByLabel, lbl, host, i) {
        ClaimByPorts(history[i].svc, portByLabel, lbl, host);
        forall j | Decides(history, portByLabel, lbl, host, j) ensures j == i {
          LastClaimUnique(history, portByLabel, lbl, host, i, j);
        }
      }
    }

    /** Every table entry has exactly one owner, which lists it and last offered that port. */
    lemma EntryHasOneOwner(lbl: string, host: string)
      requires Valid() && lbl in backends && host in backends[lbl]
      ensures exists svc :: && Live(history, svc) && Claims(svc, portByLabel, lbl, host)
                            && backends[lbl][host] == Target(svc, portByLabel, lbl)
                            && lbl in OwnedBy(svc.Id()) && OwnedBy(svc.Id())[lbl] == host
                            && forall id: ServiceId :: id.WellNamed() ==>
                                 (id.OwnerPrefix() <= backends[lbl][host] <==> id == svc.Id())
    {
      assert Get(backends, lbl, host) == Expected(history, portByLabel, lbl, host);
      var i :| Decides(history, portByLabel, lbl, host, i);
      forall j | Decides(history, portByLabel, lbl, host, j) ensures j == i {
        LastClaimUnique(history, portByLabel, lbl, host, i, j);
      }
      var svc := history[i].svc;
      LatestClaimsAt(history, portByLabel, i);
      forall id: ServiceId | id.WellNamed()
        ensures id.OwnerPrefix() <= backends[lbl][host] <==> id == svc.Id()
      {
        OwnerPrefixIsIdentity(id, history[i].Subject(), OfferedPort(svc, portByLabel, lbl));
      }
      assert Live(history, svc);
    }

    static method ServicePort(svc: Service, name: string) returns (port: nat)
      ensures port == PortNamed(svc.ports, name)
      ensures forall k :: FirstNamed(svc.ports, name, k) ==> port == svc.ports[k].port
      ensures (forall k :: 0 <= k < |svc.ports| ==> svc.ports[k].name != name) ==> port == 0
    {
      for n := 0 to |svc.ports|
        invariant PortNamed(svc.ports, name) == PortNamed(svc.ports[n..], name)
      {
        if svc.ports[n].name == name {
          return svc.ports[n].port;
        }
      }
      return 0;
    }

    /** The `owned` index after one event, given what that event claims. */
    lemma OwnedStep(h: seq<Event>, e: Event, before: map<string, map<string, string>>, next: map<string, string>)
      requires e.Subject().WellNamed() && history == h + [e]
      requires next == if e.Upsert? then ClaimsOf(e.svc, portByLabel) else map[]
      requires forall id: ServiceId :: id.WellNamed() ==>
                 (if id.Key() in before then before[id.Key()] else map[]) == LatestClaims(h, portByLabel, id)
      requires owned == if next == map[] then before - {e.Subject().Key()} else before[e.Subject().Key() := next]
      ensures forall id: ServiceId :: id.WellNamed() ==> OwnedBy(id) == LatestClaims(history, portByLabel, id)
    {
      forall id: ServiceId | id.WellNamed()
        ensures OwnedBy(id) == LatestClaims(history, portByLabel, id)
      {
        KeyInjective(id, e.Subject());
        assert history[..|history| - 1] == h;
      }
    }
  }
}
