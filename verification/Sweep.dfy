/**
 The orphan sweep (loadbalancer-controller/internal/openstack/sweep.go): delete
 what belongs to unknown clusters, and, when Services can be looked up, what
 belongs to Services that are gone. The pass remembers every answer in a table
 shared by the balancer scan and the address scan; it attempts what the plain
 filters `DoomedLBs` and `DoomedFIPs` select, which know no table.
 */
module Sweep {
  import opened Requests
  import opened Tags
  import opened Text

  datatype LB = LB(id: string, name: string, vipPort: string)
  datatype FIP = FIP(id: string, description: string, port: string)
  datatype SG = SG(id: string, name: string)

  /** What the tenant's API says about a Service; fixed during a pass. */
  datatype Answer = Live | Gone | Errored
  type Lookup = Owner -> Answer

  datatype Reply = Done | Conflict | Failed

  // ---------------------------------------------------------------- the filters

  predicate UnknownCluster(tag: string, known: set<string>) {
    ParseCluster(tag).Some? && ParseCluster(tag).value !in known
  }

  predicate GoneService(tag: string, known: set<string>, lookup: Lookup) {
    ParseService(tag).Some? && ParseService(tag).value.cluster in known && lookup(ParseService(tag).value) == Gone
  }

  function DoomedLBs(lbs: set<LB>, known: set<string>, drift: bool, lookup: Lookup): set<LB> {
    set lb | lb in lbs && (UnknownCluster(lb.name, known) || (drift && GoneService(lb.name, known, lookup)))
  }

  predicate BoundTo(f: FIP, lbs: set<LB>) {
    exists lb :: lb in lbs && lb.vipPort != "" && lb.vipPort == f.port
  }

  function OfUnknown(lbs: set<LB>, known: set<string>): set<LB> {
    set lb | lb in lbs && UnknownCluster(lb.name, known)
  }

  function DoomedFIPs(fips: set<FIP>, lbs: set<LB>, known: set<string>, drift: bool, lookup: Lookup): set<FIP> {
    set f | f in fips && ((drift && GoneService(f.description, known, lookup)) || BoundTo(f, OfUnknown(lbs, known)))
  }

  function DoomedSGs(sgs: set<SG>, known: set<string>): set<SG> {
    set g | g in sgs && CLUSTER_SG <= g.name && g.name[|CLUSTER_SG|..] !in known
  }

  /** Neutron binds a port to at most one address. */
  predicate OnePerPort(fips: set<FIP>) {
    forall f, g :: f in fips && g in fips && f.port == g.port && f.port != "" ==> f == g
  }

  predicate DistinctNames(sgs: set<SG>) {
    forall a, b :: a in sgs && b in sgs && a.name == b.name ==> a == b
  }

  function ClusterLBs(lbs: set<LB>, cluster: string): set<LB> {
    set lb | lb in lbs && ClusterPrefix(cluster) <= lb.name
  }

  function FIPsOf(fips: set<FIP>, lbs: set<LB>): set<FIP> {
    set f | f in fips && BoundTo(f, lbs)
  }

  /** No address is bound to any of the balancers. */
  predicate Freed(lbs: set<LB>, fips: set<FIP>) {
    forall lb, f :: lb in lbs && lb.vipPort != "" && f in fips ==> f.port != lb.vipPort
  }

  function OfGone(lbs: set<LB>, known: set<string>, lookup: Lookup): set<LB> {
    set lb | lb in lbs && GoneService(lb.name, known, lookup)
  }

  function GoneFIPs(fips: set<FIP>, known: set<string>, lookup: Lookup): set<FIP> {
    set f | f in fips && GoneService(f.description, known, lookup)
  }

  function Clusters(lbs: set<LB>): set<string> {
    set lb | lb in lbs && ParseCluster(lb.name).Some? :: ParseCluster(lb.name).value
  }

  ghost function Elems<T>(s: seq<T>): set<T> { set x | x in s }

  lemma ElemsSnoc<T>(s: seq<T>, x: T)
    ensures Elems(s + [x]) == Elems(s) + {x}
  {
  }

  lemma ElemsStep<T>(s: seq<T>, i: nat)
    requires i < |s|
    ensures Elems(s[..i + 1]) == Elems(s[..i]) + {s[i]} && Elems(s[..i + 1]) <= Elems(s)
  {
  }

  lemma ScanStep(list: seq<LB>, i: nat, known: set<string>, lookup: Lookup)
    requires i < |list|
    ensures var before, after, lb := Elems(list[..i]), Elems(list[..i + 1]), list[i];
            && Clusters(OfUnknown(after, known)) == Clusters(OfUnknown(before, known))
                                                   + (if UnknownCluster(lb.name, known)
                                                       then {ParseCluster(lb.name).value} else {})
            && OfGone(after, known, lookup) == OfGone(before, known, lookup) + (if GoneService(lb.name, known, lookup)
                  then {lb} else {})
  {
  }

  lemma ScanFIPStep(list: seq<FIP>, i: nat, known: set<string>, lookup: Lookup)
    requires i < |list|
    ensures GoneFIPs(Elems(list[..i + 1]), known, lookup) ==
            GoneFIPs(Elems(list[..i]), known, lookup) + (if GoneService(list[i].description, known, lookup)
                then {list[i]} else {})
  {
  }

  // ---------------------------------------------------------------- what the filters mean

  /** What becomes of a balancer that carries a Service's tag. */
  lemma TaggedFate(lb: LB, o: Owner, lbs: set<LB>, known: set<string>, drift: bool, lookup: Lookup)
    requires lb in lbs && o.Wf() && lb.name == o.Tag()
    ensures lb in DoomedLBs(lbs, known, drift, lookup) <==> o.cluster !in known || (drift && lookup(o) == Gone)
  {
    ParseIffPrinted(lb.name, o);
    ParsersAgree(lb.name);
  }

  /** Operators' balancers stay, and in a known cluster everything not known to be gone. */
  lemma LiveBalancersStay(lb: LB, lbs: set<LB>, known: set<string>, drift: bool, lookup: Lookup)
    requires lb in DoomedLBs(lbs, known, drift, lookup)
    ensures MANAGED <= lb.name
    ensures forall o: Owner :: o.Wf() && lb.name == o.Tag() && o.cluster in known ==> lookup(o) == Gone
  {
    forall o: Owner | o.Wf() && lb.name == o.Tag() && o.cluster in known ensures lookup(o) == Gone {
      TaggedFate(lb, o, lbs, known, drift, lookup);
    }
  }

  /** A resource is of an unknown cluster exactly when its name starts with that cluster's prefix. */
  lemma UnknownIff(tag: string, known: set<string>)
    ensures UnknownCluster(tag, known) <==>
            exists c :: c != "" && '/' !in c && c !in known && ClusterPrefix(c) <= tag
  {
    if UnknownCluster(tag, known) {
      ClusterPrefixIff(ParseCluster(tag).value, tag);
    }
    if c :| c != "" && '/' !in c && c !in known && ClusterPrefix(c) <= tag {
      ClusterPrefixIff(c, tag);
    }
  }

  /** What becomes of a security group: that of a cluster goes exactly when the cluster is unknown. */
  lemma GroupFate(g: SG, sgs: set<SG>, known: set<string>)
    requires g in sgs
    ensures g in DoomedSGs(sgs, known) <==> CLUSTER_SG <= g.name && forall c :: c in known ==> g.name != CLUSTER_SG + c
    ensures forall c :: g.name == ClusterSGName(c) ==> (g in DoomedSGs(sgs, known) <==> c !in known)
  {
    forall c | g.name == ClusterSGName(c) ensures g in DoomedSGs(sgs, known) <==> c !in known {
      assert g.name[|CLUSTER_SG|..] == c;
    }
    if CLUSTER_SG <= g.name {
      assert g.name == CLUSTER_SG + g.name[|CLUSTER_SG|..];
    }
  }

  /** A Service of a known cluster that is not known to be gone loses its address exactly when
      that address is bound to a balancer of an unknown cluster. */
  lemma LiveAddressLostExactlyWhen(f: FIP, o: Owner, fips: set<FIP>, lbs: set<LB>, known: set<string>, drift: bool,
                                   lookup: Lookup)
    requires f in fips && o.Wf() && f.description == o.Tag() && o.cluster in known && lookup(o) != Gone
    ensures f in DoomedFIPs(fips, lbs, known, drift, lookup) <==>
            exists lb, c :: && lb in lbs && lb.vipPort == f.port && f.port != ""
                            && c != "" && '/' !in c && c !in known && ClusterPrefix(c) <= lb.name
  {
    ParseIffPrinted(f.description, o);
    forall lb | lb in lbs
      ensures UnknownCluster(lb.name, known) <==>
              exists c :: c != "" && '/' !in c && c !in known && ClusterPrefix(c) <= lb.name
    {
      UnknownIff(lb.name, known);
    }
    assert f in DoomedFIPs(fips, lbs, known, drift, lookup) <==> BoundTo(f, OfUnknown(lbs, known));
    if BoundTo(f, OfUnknown(lbs, known)) {
      var lb :| lb in OfUnknown(lbs, known) && lb.vipPort != "" && lb.vipPort == f.port;
    }
    if lb, c :| && lb in lbs && lb.vipPort == f.port && f.port != ""
                && c != "" && '/' !in c && c !in known && ClusterPrefix(c) <= lb.name {
      assert lb in OfUnknown(lbs, known);
    }
  }

  /** The address of a gone Service of a known cluster goes, unless Services are not looked up. */
  lemma GoneAddressGoes(f: FIP, o: Owner, fips: set<FIP>, lbs: set<LB>, known: set<string>, lookup: Lookup)
    requires f in fips && o.Wf() && f.description == o.Tag() && o.cluster in known && lookup(o) == Gone
    ensures f in DoomedFIPs(fips, lbs, known, true, lookup)
  {
    ParseIffPrinted(f.description, o);
  }

  /** That cannot be where every address carries the name of the balancer it is bound to. */
  lemma LiveAddressesStay(f: FIP, o: Owner, fips: set<FIP>, lbs: set<LB>, known: set<string>, drift: bool,
                          lookup: Lookup)
    requires f in fips && o.Wf() && f.description == o.Tag() && o.cluster in known && lookup(o) != Gone
    requires forall lb :: lb in lbs && BoundTo(f, {lb}) ==> lb.name == f.description
    ensures f !in DoomedFIPs(fips, lbs, known, drift, lookup)
  {
    LiveAddressLostExactlyWhen(f, o, fips, lbs, known, drift, lookup);
    ParseIffPrinted(f.description, o);
    ParsersAgree(f.description);
    forall lb | lb in OfUnknown(lbs, known) ensures !BoundTo(f, {lb}) {
      assert lb.name != f.description;
    }
    assert forall lb :: lb in OfUnknown(lbs, known) && lb.vipPort != "" && lb.vipPort == f.port ==>
        lb in {lb} && BoundTo(f, {lb});
  }

  /** Nothing else keeps the address of a live Service: bound to a balancer of an unknown cluster, it goes. */
  lemma BorrowedAddressIsLost(mine: Owner, other: Owner, port: string)
    requires mine.Wf() && other.Wf() && mine.cluster != other.cluster && port != ""
    ensures var lb, f := LB("1", other.Tag(), port), FIP("2", mine.Tag(), port);
            f in DoomedFIPs({f}, {lb}, {mine.cluster}, true, (o: Owner) => Live)
  {
    var lb, f := LB("1", other.Tag(), port), FIP("2", mine.Tag(), port);
    ParseIffPrinted(lb.name, other);
    ParsersAgree(lb.name);
    assert lb in OfUnknown({lb}, {mine.cluster});
  }

  function InClusters(lbs: set<LB>, clusters: set<string>): set<LB> {
    set lb | lb in lbs && ParseCluster(lb.name).Some? && ParseCluster(lb.name).value in clusters
  }

  lemma ClusterNames(lbs: set<LB>)
    ensures forall c :: c in Clusters(lbs) ==> c != "" && '/' !in c
  {
  }

  /** The two kinds of doomed balancers are apart. */
  lemma TwoKinds(lbs: set<LB>, fips: set<FIP>, known: set<string>, drift: bool, lookup: Lookup)
    ensures DoomedLBs(lbs, known, drift, lookup) == OfUnknown(lbs, known)
              + if drift then OfGone(lbs, known, lookup) else {}
    ensures OfUnknown(lbs, known) !! OfGone(lbs, known, lookup)
    ensures DoomedFIPs(fips, lbs, known, drift, lookup) ==
            FIPsOf(fips, OfUnknown(lbs, known)) + if drift then GoneFIPs(fips, known, lookup) else {}
  {
  }

  /** Sweeping the clusters seen by the scan is sweeping the balancers of unknown clusters. */
  lemma SweptAreUnknown(all: set<LB>, left: set<LB>, known: set<string>, seen: set<string>)
    requires left <= all && all - left !! OfUnknown(all, known) && seen <= Clusters(OfUnknown(all, known))
    ensures InClusters(left, seen) <= OfUnknown(all, known)
    ensures seen == Clusters(OfUnknown(all, known)) ==> InClusters(left, seen) == OfUnknown(all, known)
    ensures forall g: SG :: g.name in GroupNames(seen) ==> CLUSTER_SG <= g.name && g.name[|CLUSTER_SG|..] !in known
  {
  }

  lemma FIPsOfMonotone(fips: set<FIP>, all: set<FIP>, a: set<LB>, b: set<LB>)
    requires fips <= all && a <= b
    ensures FIPsOf(fips, a) <= FIPsOf(all, b)
  {
  }

  function GroupNames(clusters: set<string>): set<string> {
    set c | c in clusters :: ClusterSGName(c)
  }

  lemma ClusterLBsAre(lbs: set<LB>, c: string)
    requires c != "" && '/' !in c
    ensures ClusterLBs(lbs, c) == InClusters(lbs, {c})
  {
    forall lb | lb in lbs ensures lb in ClusterLBs(lbs, c) <==> lb in InClusters(lbs, {c}) {
      ClusterPrefixIff(c, lb.name);
    }
  }

  /** Sweeping other clusters first leaves a cluster's balancers in place. */
  lemma InClustersAdd(all: set<LB>, left: set<LB>, seen: set<string>, c: string)
    requires left <= all && all - left <= InClusters(all, seen) && c !in seen
    ensures InClusters(left, {c}) == InClusters(all, {c})
    ensures InClusters(all, seen + {c}) == InClusters(all, seen) + InClusters(all, {c})
  {
    forall lb | lb in all ensures lb in InClusters(left, {c}) <==> lb in InClusters(all, {c}) {
      assert lb in all - left ==> lb in InClusters(all, seen);
    }
  }

  lemma FIPsOfAdd(all: set<FIP>, left: set<FIP>, a: set<LB>, b: set<LB>)
    requires left <= all
    ensures FIPsOf(all, a + b) == FIPsOf(all, a) + FIPsOf(all, b)
    ensures FIPsOf(left, b) == FIPsOf(all, b) * left
  {
  }

  /** The table says of every Service asked about whether it must be treated as existing. */
  ghost predicate Remembers(cache: map<string, bool>, asked: multiset<Owner>, lookup: Lookup) {
    && (forall o: Owner :: o in asked ==> o.Wf() && asked[o] == 1)
    && (forall o: Owner :: o.Wf() ==> (o.CacheKey() in cache <==> o in asked))
    && (forall o: Owner :: o.Wf() && o.CacheKey() in cache ==> cache[o.CacheKey()] == (lookup(o) != Gone))
  }

  /** Deletions asked for so far, whether or not they succeeded. */
  datatype Attempts = Attempts(lbs: set<LB>, fips: set<FIP>, sgs: set<SG>)

  class Project {
    const lookup: Lookup
    const reliable: bool
    var lbs: set<LB>
    var fips: set<FIP>
    var sgs: set<SG>
    ghost var attempts: Attempts
    ghost var asked: multiset<Owner>

    constructor (lookup: Lookup, reliable: bool, lbs: set<LB>, fips: set<FIP>, sgs: set<SG>)
      ensures this.lookup == lookup && this.reliable == reliable
      ensures this.lbs == lbs && this.fips == fips && this.sgs == sgs
      ensures attempts == Attempts({}, {}, {}) && asked == multiset{}
    {
      this.lookup, this.reliable, this.lbs, this.fips, this.sgs := lookup, reliable, lbs, fips, sgs;
      attempts, asked := Attempts({}, {}, {}), multiset{};
    }

    /** Nothing disappears that was not asked to. */
    twostate predicate OnlyAttempted()
      reads this
    {
      && lbs <= old(lbs) && fips <= old(fips) && sgs <= old(sgs)
      && old(lbs) - lbs <= attempts.lbs && old(fips) - fips <= attempts.fips && old(sgs) - sgs <= attempts.sgs
      && old(attempts).lbs <= attempts.lbs && old(attempts).fips <= attempts.fips && old(attempts).sgs <= attempts.sgs
    }

    /** A request for a deletion is served, refused because the resource is in use, or fails. */
    method Request() returns (r: Reply)
      ensures reliable ==> r == Done
    {
      r := *;
      if reliable {
        r := Done;
      }
    }

    /** Octavia deletes in the background, so the balancer may stay listed for a while. */
    method DeleteLB(lb: LB) returns (r: Reply)
      modifies `lbs, `attempts
      ensures attempts == old(attempts).(lbs := old(attempts).lbs + {lb})
      ensures lbs == old(lbs) || lbs == old(lbs) - {lb}
      ensures r == Conflict ==> lbs == old(lbs)
      ensures reliable ==> r == Done
    {
      r := Request();
      var vanished: bool := *;
      if r != Conflict && vanished {
        lbs := lbs - {lb};
      }
      attempts := attempts.(lbs := attempts.lbs + {lb});
    }

    method DeleteFIP(f: FIP) returns (r: Reply)
      modifies `fips, `attempts
      ensures attempts == old(attempts).(fips := old(attempts).fips + {f})
      ensures fips == old(fips) || fips == old(fips) - {f}
      ensures r == Done ==> fips == old(fips) - {f}
      ensures r == Conflict ==> fips == old(fips)
      ensures reliable ==> r == Done
    {
      r := Request();
      var carriedOut: bool := *;
      if r == Done || (r == Failed && carriedOut) {
        fips := fips - {f};
      }
      attempts := attempts.(fips := attempts.fips + {f});
    }

    method DeleteSG(g: SG) returns (r: Reply)
      modifies `sgs, `attempts
      ensures attempts == old(attempts).(sgs := old(attempts).sgs + {g})
      ensures sgs == old(sgs) || sgs == old(sgs) - {g}
      ensures r == Done ==> sgs == old(sgs) - {g}
      ensures r == Conflict ==> sgs == old(sgs)
      ensures reliable ==> r == Done
    {
      r := Request();
      var carriedOut: bool := *;
      if r == Done || (r == Failed && carriedOut) {
        sgs := sgs - {g};
      }
      attempts := attempts.(sgs := attempts.sgs + {g});
    }

    /** Whether the Service must be treated as existing: from the table, else by asking once. */
    method Exists(o: Owner, cache: map<string, bool>) returns (exists_: bool, after: map<string, bool>)
      requires o.Wf() && Remembers(cache, asked, lookup)
      modifies `asked
      ensures exists_ == (lookup(o) != Gone)
      ensures Remembers(after, asked, lookup)
      ensures forall p: Owner :: p in asked ==> p in old(asked) || p == o
    {
      var key := o.CacheKey();
      if key in cache {
        return cache[key], cache;
      }
      assert o !in asked;
      var answer := lookup(o);
      asked := asked + multiset{o};
      exists_ := answer != Gone;
      after := cache[key := exists_];
      forall p: Owner | p.Wf()
        ensures p.CacheKey() in after <==> p in asked
        ensures p.CacheKey() in after ==> after[p.CacheKey()] == (lookup(p) != Gone)
      {
        if p.CacheKey() == key {
          CacheKeyInjective(o, p);
        }
      }
    }

    /** One balancer of the scan: is its cluster to be swept, or is its Service gone? */
    method ScanLB(lb: LB, known: set<string>, drift: bool, cache: map<string, bool>)
      returns (cluster: Option<string>, orphan: bool, after: map<string, bool>)
      requires Remembers(cache, asked, lookup) && AskedWithin(known, drift)
      modifies `asked
      ensures Remembers(after, asked, lookup) && AskedWithin(known, drift)
      ensures cluster == if UnknownCluster(lb.name, known) then ParseCluster(lb.name) else None
      ensures orphan <==> drift && GoneService(lb.name, known, lookup)
    {
      cluster, orphan, after := None, false, cache;
      ServiceNeedsCluster(lb.name);
      if !(MANAGED <= lb.name) {
        return;
      }
      cluster := ParseCluster(lb.name);
      if cluster.None? || cluster.value !in known {
        return;
      }
      cluster := None;
      if !drift {
        return;
      }
      var o := ParseService(lb.name);
      if o.Some? {
        ParseIffPrinted(lb.name, o.value);
        var there;
        there, after := Exists(o.value, cache);
        orphan := !there;
      }
    }

    ghost predicate AskedWithin(known: set<string>, drift: bool)
      reads this
    {
      forall o: Owner :: o in asked ==> o.cluster in known && drift
    }

    lemma ServiceNeedsCluster(tag: string)
      ensures ParseService(tag).Some? ==> ParseCluster(tag) == Some(ParseService(tag).value.cluster)
    {
    }

    /** The balancer scan: clusters to sweep and balancers of gone Services. */
    method ScanLBs(known: set<string>, drift: bool)
      returns (ok: bool, clusters: seq<string>, orphans: seq<LB>, cache: map<string, bool>)
      requires asked == multiset{}
      modifies `asked
      ensures Remembers(cache, asked, lookup) && AskedWithin(known, drift)
      ensures ok ==> Elems(clusters) == Clusters(OfUnknown(lbs, known))
      ensures ok ==> Elems(orphans) == if drift then OfGone(lbs, known, lookup) else {}
      ensures reliable ==> ok
    {
      clusters, orphans, cache := [], [], map[];
      var list := Listed(lbs);
      for i := 0 to |list|
        invariant Remembers(cache, asked, lookup) && AskedWithin(known, drift)
        invariant Scanned(list, i, known, drift, Elems(clusters), Elems(orphans))
      {
        ok := Answered(reliable);
        if !ok {
          return;
        }
        clusters, orphans, cache := ScanNext(list, i, known, drift, clusters, orphans, cache);
      }
      ok := true;
      assert list[..|list|] == list;
    }

    method ScanNext(list: seq<LB>, i: nat, known: set<string>, drift: bool, clusters: seq<string>, orphans: seq<LB>,
                    cache: map<string, bool>)
      returns (clusters': seq<string>, orphans': seq<LB>, after: map<string, bool>)
      requires i < |list| && Scanned(list, i, known, drift, Elems(clusters), Elems(orphans))
      requires Remembers(cache, asked, lookup) && AskedWithin(known, drift)
      modifies `asked
      ensures Scanned(list, i + 1, known, drift, Elems(clusters'), Elems(orphans'))
      ensures Remembers(after, asked, lookup) && AskedWithin(known, drift)
    {
      var cluster, orphan;
      cluster, orphan, after := ScanLB(list[i], known, drift, cache);
      clusters' := if cluster.Some? then clusters + [cluster.value] else clusters;
      orphans' := if orphan then orphans + [list[i]] else orphans;
      ScannedStep(list, i, known, drift, clusters, orphans, cluster, orphan);
    }

    ghost predicate Scanned(list: seq<LB>, i: nat, known: set<string>, drift: bool, clusters: set<string>,
                            orphans: set<LB>)
      requires i <= |list|
    {
      && clusters == Clusters(OfUnknown(Elems(list[..i]), known))
      && orphans == if drift then OfGone(Elems(list[..i]), known, lookup) else {}
    }

    lemma ScannedStep(list: seq<LB>, i: nat, known: set<string>, drift: bool, clusters: seq<string>, orphans: seq<LB>,
                      cluster: Option<string>, orphan: bool)
      requires i < |list| && Scanned(list, i, known, drift, Elems(clusters), Elems(orphans))
      requires cluster == if UnknownCluster(list[i].name, known) then ParseCluster(list[i].name) else None
      requires orphan <==> drift && GoneService(list[i].name, known, lookup)
      ensures Scanned(list, i + 1, known, drift,
                      Elems(if cluster.Some? then clusters + [cluster.value] else clusters),
                      Elems(if orphan then orphans + [list[i]] else orphans))
    {
      ScanStep(list, i, known, lookup);
      if cluster.Some? {
        ElemsSnoc(clusters, cluster.value);
      }
      ElemsSnoc(orphans, list[i]);
    }

    method DeleteOrphanLBs(orphans: seq<LB>) returns (ok: bool)
      modifies `lbs, `attempts
      ensures OnlyAttempted() && attempts.fips == old(attempts).fips && attempts.sgs == old(attempts).sgs
      ensures attempts.lbs <= old(attempts).lbs + Elems(orphans) && old(lbs) - lbs <= Elems(orphans)
      ensures ok ==> attempts.lbs == old(attempts).lbs + Elems(orphans)
      ensures reliable ==> ok
    {
      for i := 0 to |orphans|
        invariant OnlyAttempted() && attempts.fips == old(attempts).fips && attempts.sgs == old(attempts).sgs
        invariant attempts.lbs == old(attempts).lbs + Elems(orphans[..i]) && old(lbs) - lbs <= Elems(orphans[..i])
      {
        ElemsStep(orphans, i);
        var r := DeleteLB(orphans[i]);
        if r == Failed {
          return false;
        }
      }
      ok := true;
      assert orphans[..|orphans|] == orphans;
    }

    /** The address scan, sharing the table of the balancer scan. */
    method ScanFIPs(known: set<string>, before: map<string, bool>)
      returns (ok: bool, orphans: seq<FIP>, cache: map<string, bool>)
      requires Remembers(before, asked, lookup) && AskedWithin(known, true)
      modifies `asked
      ensures Remembers(cache, asked, lookup) && AskedWithin(known, true)
      ensures ok ==> Elems(orphans) == GoneFIPs(fips, known, lookup)
      ensures reliable ==> ok
    {
      cache, orphans := before, [];
      var list := Listed(fips);
      for i := 0 to |list|
        invariant Remembers(cache, asked, lookup) && AskedWithin(known, true)
        invariant Elems(orphans) == GoneFIPs(Elems(list[..i]), known, lookup)
      {
        ok := Answered(reliable);
        if !ok {
          return;
        }
        var orphan;
        orphan, cache := ScanFIP(list[i], known, cache);
        ScanFIPStep(list, i, known, lookup);
        if orphan {
          ElemsSnoc(orphans, list[i]);
          orphans := orphans + [list[i]];
        }
      }
      ok := true;
      assert list[..|list|] == list;
    }

    method ScanFIP(f: FIP, known: set<string>, cache: map<string, bool>)
      returns (orphan: bool, after: map<string, bool>)
      requires Remembers(cache, asked, lookup) && AskedWithin(known, true)
      modifies `asked
      ensures Remembers(after, asked, lookup) && AskedWithin(known, true)
      ensures orphan <==> GoneService(f.description, known, lookup)
    {
      orphan, after := false, cache;
      if !(MANAGED <= f.description) {
        return;
      }
      var o := ParseService(f.description);
      if o.None? || o.value.cluster !in known {
        return;
      }
      ParseIffPrinted(f.description, o.value);
      var there;
      there, after := Exists(o.value, cache);
      orphan := !there;
    }

    method SweepFloatingIPs(known: set<string>, before: map<string, bool>) returns (ok: bool, cache: map<string, bool>)
      requires Remembers(before, asked, lookup) && AskedWithin(known, true)
      modifies `asked, `fips, `attempts
      ensures Remembers(cache, asked, lookup) && AskedWithin(known, true)
      ensures OnlyAttempted() && attempts.lbs == old(attempts).lbs && attempts.sgs == old(attempts).sgs
      ensures attempts.fips <= old(attempts).fips + GoneFIPs(old(fips), known, lookup)
      ensures ok ==> attempts.fips == old(attempts).fips + GoneFIPs(old(fips), known, lookup)
      ensures reliable ==> ok
    {
      var orphans;
      ok, orphans, cache := ScanFIPs(known, before);
      if ok {
        ok := DeleteOrphanFIPs(orphans);
      }
    }

    method DeleteOrphanFIPs(orphans: seq<FIP>) returns (ok: bool)
      modifies `fips, `attempts
      ensures OnlyAttempted() && attempts.lbs == old(attempts).lbs && attempts.sgs == old(attempts).sgs
      ensures attempts.fips <= old(attempts).fips + Elems(orphans)
      ensures ok ==> attempts.fips == old(attempts).fips + Elems(orphans)
      ensures reliable ==> ok
    {
      for i := 0 to |orphans|
        invariant OnlyAttempted() && attempts.lbs == old(attempts).lbs && attempts.sgs == old(attempts).sgs
        invariant attempts.fips == old(attempts).fips + Elems(orphans[..i])
      {
        ElemsStep(orphans, i);
        var r := DeleteFIP(orphans[i]);
        if r == Failed {
          return false;
        }
      }
      ok := true;
      assert orphans[..|orphans|] == orphans;
    }

    /** Removes the address bound to a port, if there is one. */
    method DeleteFloatingIP(port: string) returns (ok: bool)
      modifies `fips, `attempts
      ensures OnlyAttempted() && attempts.lbs == old(attempts).lbs && attempts.sgs == old(attempts).sgs
      ensures forall f :: f in attempts.fips - old(attempts).fips ==> f in old(fips) && f.port == port != ""
      ensures ok && port != "" ==> forall f :: f in old(fips) && f.port == port ==>
                f in attempts.fips || !OnePerPort(old(fips))
      ensures ok && port != "" && OnePerPort(old(fips)) ==> forall f :: f in fips ==> f.port != port
      ensures reliable ==> ok
    {
      if port == "" {
        return true;
      }
      ok := Answered(reliable);
      if ok && exists f :: f in fips && f.port == port {
        var f :| f in fips && f.port == port;
        var r := DeleteFIP(f);
        ok := r == Done;
      }
    }

    /** Addresses first, then balancers, then the cluster's group; a group still in use is left. */
    method SweepClusterResources(cluster: string) returns (ok: bool)
      modifies `lbs, `fips, `sgs, `attempts
      ensures OnlyAttempted()
      ensures old(lbs) - lbs <= ClusterLBs(old(lbs), cluster)
      ensures attempts.lbs <= old(attempts).lbs + ClusterLBs(old(lbs), cluster)
      ensures attempts.fips <= old(attempts).fips + FIPsOf(old(fips), ClusterLBs(old(lbs), cluster))
      ensures forall g :: g in attempts.sgs - old(attempts).sgs ==> g in old(sgs) && g.name == ClusterSGName(cluster)
      ensures OnePerPort(old(fips)) ==> Freed(attempts.lbs - old(attempts).lbs, fips)
      ensures ok ==> attempts.lbs == old(attempts).lbs + ClusterLBs(old(lbs), cluster)
      ensures ok && OnePerPort(old(fips)) ==> FIPsOf(old(fips), ClusterLBs(old(lbs), cluster)) <= attempts.fips
      ensures ok && DistinctNames(old(sgs)) ==> forall g :: g in old(sgs) && g.name == ClusterSGName(cluster) ==>
                g in attempts.sgs
      ensures reliable ==> ok
    {
      var toDelete;
      ok, toDelete := ListCluster(cluster);
      if !ok {
        return;
      }
      ok := DeleteListed(toDelete);
      if !ok {
        return;
      }
      ok := Answered(reliable);
      if ok && exists g :: g in sgs && g.name == ClusterSGName(cluster) {
        var g :| g in sgs && g.name == ClusterSGName(cluster);
        var r := DeleteSG(g);
        ok := r != Failed;
      }
    }

    method ListCluster(cluster: string) returns (ok: bool, toDelete: seq<LB>)
      ensures Elems(toDelete) <= ClusterLBs(lbs, cluster)
      ensures ok ==> Elems(toDelete) == ClusterLBs(lbs, cluster)
      ensures reliable ==> ok
    {
      toDelete := [];
      var list := Listed(lbs);
      for i := 0 to |list|
        invariant forall lb :: lb in toDelete <==> lb in list[..i] && ClusterPrefix(cluster) <= lb.name
      {
        assert forall x :: x in list[..i + 1] <==> x in list[..i] || x == list[i];
        assert forall x :: x in list[..i] ==> x in list;
        ok := Answered(reliable);
        if !ok {
          return;
        }
        if ClusterPrefix(cluster) <= list[i].name {
          toDelete := toDelete + [list[i]];
        }
      }
      ok := true;
      assert list[..|list|] == list;
    }

    method DeleteListed(toDelete: seq<LB>) returns (ok: bool)
      modifies `lbs, `fips, `attempts
      ensures OnlyAttempted() && attempts.sgs == old(attempts).sgs
      ensures var doomed := Elems(toDelete);
              && old(lbs) - lbs <= doomed
              && attempts.lbs <= old(attempts).lbs + doomed
              && attempts.fips <= old(attempts).fips + FIPsOf(old(fips), doomed)
              && (ok ==> attempts.lbs == old(attempts).lbs + doomed)
              && (ok && OnePerPort(old(fips)) ==> FIPsOf(old(fips), doomed) <= attempts.fips)
      ensures OnePerPort(old(fips)) ==> Freed(attempts.lbs - old(attempts).lbs, fips)
      ensures reliable ==> ok
    {
      for i := 0 to |toDelete|
        invariant OnlyAttempted() && attempts.sgs == old(attempts).sgs
        invariant old(lbs) - lbs <= Elems(toDelete[..i]) && attempts.lbs == old(attempts).lbs + Elems(toDelete[..i])
        invariant attempts.fips <= old(attempts).fips + FIPsOf(old(fips), Elems(toDelete[..i]))
        invariant OnePerPort(old(fips)) ==>
                  FIPsOf(old(fips), Elems(toDelete[..i])) <= attempts.fips && Freed(Elems(toDelete[..i]), fips)
      {
        ElemsStep(toDelete, i);
        FIPsOfAdd(old(fips), fips, Elems(toDelete[..i]), {toDelete[i]});
        FIPsOfMonotone(old(fips), old(fips), Elems(toDelete[..i]), Elems(toDelete));
        FIPsOfMonotone(old(fips), old(fips), Elems(toDelete[..i + 1]), Elems(toDelete));
        ok := DeleteOne(toDelete[i]);
        if !ok {
          return;
        }
      }
      ok := true;
      assert toDelete[..|toDelete|] == toDelete;
    }

    method DeleteOne(lb: LB) returns (ok: bool)
      modifies `lbs, `fips, `attempts
      ensures OnlyAttempted() && attempts.sgs == old(attempts).sgs && old(lbs) - lbs <= {lb}
      ensures attempts.lbs == old(attempts).lbs || attempts.lbs == old(attempts).lbs + {lb}
      ensures ok ==> attempts.lbs == old(attempts).lbs + {lb}
      ensures attempts.fips <= old(attempts).fips + FIPsOf(old(fips), {lb})
      ensures OnePerPort(old(fips)) && lb in attempts.lbs - old(attempts).lbs ==> Freed({lb}, fips)
      ensures OnePerPort(old(fips)) && ok ==> FIPsOf(old(fips), {lb}) <= attempts.fips && Freed({lb}, fips)
      ensures reliable ==> ok
    {
      ok := DeleteFloatingIP(lb.vipPort);
      assert forall f :: f in attempts.fips - old(attempts).fips ==> lb in {lb} && BoundTo(f, {lb});
      if ok {
        var r := DeleteLB(lb);
        ok := r == Done;
      }
    }

    /** Each cluster of the list once. */
    method SweepClusters(clusters: seq<string>) returns (ok: bool, seen: set<string>)
      requires forall c :: c in clusters ==> c != "" && '/' !in c
      modifies `lbs, `fips, `sgs, `attempts
      ensures OnlyAttempted() && seen <= Elems(clusters)
      ensures attempts.lbs <= old(attempts).lbs + InClusters(old(lbs), seen)
      ensures attempts.fips <= old(attempts).fips + FIPsOf(old(fips), InClusters(old(lbs), seen))
      ensures forall g :: g in attempts.sgs - old(attempts).sgs ==> g in old(sgs) && g.name in GroupNames(seen)
      ensures ok ==> seen == Elems(clusters) && InClusters(old(lbs), seen) <= attempts.lbs
      ensures ok && OnePerPort(old(fips)) ==> FIPsOf(old(fips), InClusters(old(lbs), seen)) <= attempts.fips
      ensures ok && DistinctNames(old(sgs)) ==> forall g :: g in old(sgs) && g.name in GroupNames(seen) ==>
                g in attempts.sgs
      ensures reliable ==> ok
    {
      seen := {};
      for i := 0 to |clusters|
        invariant OnlyAttempted() && seen == Elems(clusters[..i])
        invariant old(lbs) - lbs <= InClusters(old(lbs), seen)
        invariant attempts.lbs == old(attempts).lbs + InClusters(old(lbs), seen)
        invariant attempts.fips <= old(attempts).fips + FIPsOf(old(fips), InClusters(old(lbs), seen))
        invariant OnePerPort(old(fips)) ==> FIPsOf(old(fips), InClusters(old(lbs), seen)) <= attempts.fips
        invariant forall g :: g in attempts.sgs - old(attempts).sgs ==> g in old(sgs) && g.name in GroupNames(seen)
        invariant DistinctNames(old(sgs)) ==> forall g :: g in old(sgs) && g.name in GroupNames(seen) ==>
                  g in attempts.sgs
      {
        ElemsStep(clusters, i);
        var c := clusters[i];
        if c in seen {
          assert Elems(clusters[..i + 1]) == seen;
          continue;
        }
        ghost var before := seen;
        seen := seen + {c};
        label L:
        ClusterLBsAre(lbs, c);
        InClustersAdd(old(lbs), old@L(lbs), before, c);
        ok := SweepClusterResources(c);
        FIPsOfAdd(old(fips), old@L(fips), InClusters(old(lbs), before), InClusters(old(lbs), {c}));
        if !ok {
          return;
        }
      }
      ok := true;
      assert clusters[..|clusters|] == clusters;
    }

    /** Groups of unknown clusters that had no balancer; here a group still in use stops the pass. */
    method SweepGroups(known: set<string>, seen: set<string>) returns (ok: bool)
      modifies `sgs, `attempts
      ensures OnlyAttempted() && attempts.lbs == old(attempts).lbs && attempts.fips == old(attempts).fips
      ensures attempts.sgs <= old(attempts).sgs + DoomedSGs(old(sgs), known)
      ensures forall g :: g in attempts.sgs - old(attempts).sgs ==>
                g in old(sgs) && CLUSTER_SG <= g.name && forall c :: c in known ==> g.name != CLUSTER_SG + c
      ensures ok ==> forall g :: g in DoomedSGs(old(sgs), known) && g.name !in GroupNames(seen) ==> g in attempts.sgs
      ensures reliable ==> ok
    {
      var list := Listed(sgs);
      for i := 0 to |list|
        invariant OnlyAttempted() && attempts.lbs == old(attempts).lbs && attempts.fips == old(attempts).fips
        invariant attempts.sgs <= old(attempts).sgs + DoomedSGs(old(sgs), known)
        invariant forall g :: g in list[..i] && g in DoomedSGs(old(sgs), known) && g.name !in GroupNames(seen) ==>
                  g in attempts.sgs
      {
        ok := Answered(reliable);
        if !ok {
          return;
        }
        var g := list[i];
        ElemsStep(list, i);
        assert forall x :: x in list[..i + 1] <==> x in list[..i] || x == g;
        assert g in list;
        if CLUSTER_SG <= g.name {
          var cluster := g.name[|CLUSTER_SG|..];
          assert g.name == ClusterSGName(cluster);
          if cluster in known || cluster in seen {
            continue;
          }
          var r := DeleteSG(g);
          if r != Done {
            return false;
          }
        }
      }
      ok := true;
      assert list[..|list|] == list;
    }

    /** The pass: what it attempts is what the filters select, and no Service is asked about twice. */
    method SweepOrphans(known: set<string>, drift: bool) returns (ok: bool)
      requires attempts == Attempts({}, {}, {}) && asked == multiset{}
      modifies this
      ensures OnlyAttempted()
      ensures attempts.lbs <= DoomedLBs(old(lbs), known, drift, lookup)
      ensures attempts.fips <= DoomedFIPs(old(fips), old(lbs), known, drift, lookup)
      ensures attempts.sgs <= DoomedSGs(old(sgs), known)
      ensures ok ==> attempts.lbs == DoomedLBs(old(lbs), known, drift, lookup)
      ensures ok && (forall f, g :: f in old(fips) && g in old(fips) && f.port == g.port != "" ==> f == g) ==>
                attempts.fips == DoomedFIPs(old(fips), old(lbs), known, drift, lookup)
      ensures forall lb, o: Owner :: lb in attempts.lbs && o.Wf() && lb.name == o.Tag() ==>
                o.cluster !in known || (drift && lookup(o) == Gone)
      ensures forall g :: g in attempts.sgs ==>
                g in old(sgs) && CLUSTER_SG <= g.name && forall c :: c in known ==> g.name != CLUSTER_SG + c
      ensures ok ==> forall lb, c :: lb in old(lbs) && c != "" && '/' !in c && c !in known
                                     && MANAGED + c + "/" <= lb.name ==>
                lb in attempts.lbs
      ensures ok && drift ==> forall lb, o: Owner :: lb in old(lbs) && o.Wf() && lb.name == o.Tag()
                                                     && lookup(o) == Gone ==>
                lb in attempts.lbs
      ensures ok && (forall a, b :: a in old(sgs) && b in old(sgs) && a.name == b.name ==> a == b) ==>
                forall g, c :: g in old(sgs) && g.name == ClusterSGName(c) && c !in known ==> g in attempts.sgs
      ensures forall o: Owner :: o in asked ==> asked[o] == 1 && o.cluster in known && drift
      ensures reliable ==> ok
    {
      ok := SweepAll(known, drift);
      ByName(old(lbs), old(sgs), known, drift);
    }

    /** What the filters select, name by name. */
    lemma ByName(lbs: set<LB>, sgs: set<SG>, known: set<string>, drift: bool)
      ensures forall lb, o: Owner :: lb in lbs && o.Wf() && lb.name == o.Tag() ==>
                (lb in DoomedLBs(lbs, known, drift, lookup) <==> o.cluster !in known || (drift && lookup(o) == Gone))
      ensures forall lb, c :: lb in lbs && c != "" && '/' !in c && c !in known && MANAGED + c + "/" <= lb.name ==>
                lb in DoomedLBs(lbs, known, drift, lookup)
      ensures forall g :: g in sgs ==>
                (g in DoomedSGs(sgs, known) <==>
                 CLUSTER_SG <= g.name && forall c :: c in known ==> g.name != CLUSTER_SG + c)
      ensures forall g, c :: g in sgs && g.name == ClusterSGName(c) ==> (g in DoomedSGs(sgs, known) <==> c !in known)
    {
      forall lb, o: Owner | lb in lbs && o.Wf() && lb.name == o.Tag()
        ensures lb in DoomedLBs(lbs, known, drift, lookup) <==> o.cluster !in known || (drift && lookup(o) == Gone)
      {
        TaggedFate(lb, o, lbs, known, drift, lookup);
      }
      forall lb, c | lb in lbs && c != "" && '/' !in c && c !in known && MANAGED + c + "/" <= lb.name
        ensures lb in DoomedLBs(lbs, known, drift, lookup)
      {
        UnknownIff(lb.name, known);
      }
      forall g | g in sgs
        ensures g in DoomedSGs(sgs, known) <==>
                CLUSTER_SG <= g.name && forall c :: c in known ==> g.name != CLUSTER_SG + c
        ensures forall c :: g.name == ClusterSGName(c) ==> (g in DoomedSGs(sgs, known) <==> c !in known)
      {
        GroupFate(g, sgs, known);
      }
    }

    method SweepAll(known: set<string>, drift: bool) returns (ok: bool)
      requires attempts == Attempts({}, {}, {}) && asked == multiset{}
      modifies this
      ensures OnlyAttempted()
      ensures attempts.lbs <= DoomedLBs(old(lbs), known, drift, lookup)
      ensures attempts.fips <= DoomedFIPs(old(fips), old(lbs), known, drift, lookup)
      ensures attempts.sgs <= DoomedSGs(old(sgs), known)
      ensures ok ==> attempts.lbs == DoomedLBs(old(lbs), known, drift, lookup)
      ensures ok && OnePerPort(old(fips)) ==> attempts.fips == DoomedFIPs(old(fips), old(lbs), known, drift, lookup)
      ensures ok && DistinctNames(old(sgs)) ==> attempts.sgs == DoomedSGs(old(sgs), known)
      ensures forall o: Owner :: o in asked ==> asked[o] == 1 && o.cluster in known && drift
      ensures reliable ==> ok
    {
      var clusters, orphans, cache;
      ok, clusters, orphans, cache := ScanLBs(known, drift);
      if !ok {
        return;
      }
      TwoKinds(lbs, fips, known, drift, lookup);
      ok := DeleteOrphanLBs(orphans);
      if !ok {
        return;
      }
      ok := SweepRest(known, drift, clusters, cache, old(lbs));
    }

    method SweepRest(known: set<string>, drift: bool, clusters: seq<string>, before: map<string, bool>,
                     ghost allLBs: set<LB>) returns (ok: bool)
      requires lbs <= allLBs && allLBs - lbs !! OfUnknown(allLBs, known)
      requires Elems(clusters) == Clusters(OfUnknown(allLBs, known))
      requires Remembers(before, asked, lookup) && AskedWithin(known, drift) && attempts.fips == {}
                && attempts.sgs == {}
      modifies this
      ensures OnlyAttempted() && AskedWithin(known, drift) && forall o: Owner :: o in asked ==> asked[o] == 1
      ensures attempts.lbs <= old(attempts).lbs + OfUnknown(allLBs, known)
      ensures ok ==> attempts.lbs == old(attempts).lbs + OfUnknown(allLBs, known)
      ensures attempts.fips <= FIPsOf(old(fips), OfUnknown(allLBs, known))
                + if drift then GoneFIPs(old(fips), known, lookup) else {}
      ensures ok && OnePerPort(old(fips)) ==>
                attempts.fips == FIPsOf(old(fips), OfUnknown(allLBs, known))
                    + if drift then GoneFIPs(old(fips), known, lookup) else {}
      ensures attempts.sgs <= DoomedSGs(old(sgs), known)
      ensures ok && DistinctNames(old(sgs)) ==> attempts.sgs == DoomedSGs(old(sgs), known)
      ensures reliable ==> ok
    {
      if drift {
        var cache;
        ok, cache := SweepFloatingIPs(known, before);
        if !ok {
          return;
        }
      }
      ok := SweepUnknown(known, clusters, allLBs, old(fips));
    }

    /** The last two stages: clusters nobody knows, then groups nobody owns. */
    method SweepUnknown(known: set<string>, clusters: seq<string>, ghost allLBs: set<LB>, ghost allFIPs: set<FIP>)
      returns (ok: bool)
      requires lbs <= allLBs && allLBs - lbs !! OfUnknown(allLBs, known)
      requires Elems(clusters) == Clusters(OfUnknown(allLBs, known))
      requires fips <= allFIPs && allFIPs - fips <= attempts.fips
      modifies `lbs, `fips, `sgs, `attempts
      ensures OnlyAttempted()
      ensures attempts.lbs <= old(attempts).lbs + OfUnknown(allLBs, known)
      ensures ok ==> attempts.lbs == old(attempts).lbs + OfUnknown(allLBs, known)
      ensures attempts.fips <= old(attempts).fips + FIPsOf(allFIPs, OfUnknown(allLBs, known))
      ensures ok && OnePerPort(allFIPs) ==>
                attempts.fips == old(attempts).fips + FIPsOf(allFIPs, OfUnknown(allLBs, known))
      ensures attempts.sgs <= old(attempts).sgs + DoomedSGs(old(sgs), known)
      ensures ok && DistinctNames(old(sgs)) ==> attempts.sgs == old(attempts).sgs + DoomedSGs(old(sgs), known)
      ensures reliable ==> ok
    {
      hide BoundTo, InClusters, OfUnknown, Clusters;
      ghost var unknown := OfUnknown(allLBs, known);
      ClusterNames(unknown);
      assert forall c :: c in clusters <==> c in Elems(clusters);
      var seen;
      ok, seen := SweepClusters(clusters);
      SweptAreUnknown(allLBs, old(lbs), known, seen);
      FIPsOfMonotone(old(fips), allFIPs, InClusters(old(lbs), seen), unknown);
      FIPsOfAdd(allFIPs, old(fips), {}, unknown);
      if !ok {
        return;
      }
      ok := SweepGroups(known, seen);
    }
  }

  method Listed<T(==)>(s: set<T>) returns (list: seq<T>)
    ensures forall x :: x in list <==> x in s
  {
    list := [];
    var todo := s;
    while todo != {}
      invariant todo <= s && forall x :: x in list <==> x in s && x !in todo
    {
      var x :| x in todo;
      todo := todo - {x};
      list := list + [x];
    }
  }
}