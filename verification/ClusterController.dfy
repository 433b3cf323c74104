/**
 The cluster half of the teardown (internal/controller/cluster_controller.go with
 SweepClusterResources of internal/openstack/sweep.go, in loadbalancer-controller):
 what one pass over a tenant's release does, with others acting before every request
 unless `quiet`, and any request failing unless `reliable`.
 */
module ClusterController {
  import opened Finalizers
  import opened Listeners
  import opened Requests
  import opened Tags
  import opened Text
  import Rely

  /** What the cluster controller does in a pass over the release of `t`. */
  predicate OfCluster(a: Action, t: string) {
    (a.AddClusterFinalizer? || a.DropClusterFinalizer? || a.SweepLB? || a.SweepFIP?) && a.t == t
  }

  // ---------------------------------------------------------------- what it can rely on

  /** What everybody else leaves as it is. */
  ghost predicate Evolves(a: State, b: State) {
    && a.nextId <= b.nextId && a.condemned <= b.condemned && a.recreated <= b.recreated
    && (forall id :: id in a.owners ==> id in b.owners && b.owners[id] == a.owners[id])
    && (forall f :: f in b.fips ==> if f in a.fips then b.fips[f] == a.fips[f] else a.nextId <= f)
    && (forall t, id :: OfTenant(a, t, id) && Clear(a, t, id) ==> Clear(b, t, id))
  }

  /** A balancer, there or gone by now, of a tenant that is being torn down. */
  predicate OfTenant(s: State, t: string, id: nat) {
    t in s.condemned && id in s.owners && s.owners[id].cluster == t
  }

  lemma EvolvesRefl(s: State)
    ensures Evolves(s, s)
  {
  }

  lemma EvolvesTrans(a: State, b: State, c: State)
    requires Inv(a) && Evolves(a, b) && Evolves(b, c)
    ensures Evolves(a, c)
  {
  }

  lemma StepEvolves(s: State, a: Action)
    requires Inv(s) && Enabled(s, a)
    ensures Evolves(s, Apply(s, a))
  {
    hide Inv, Enabled, Apply, Clear;
    NothingForgotten(s, a);
    forall t, id | OfTenant(s, t, id) && Clear(s, t, id) ensures Clear(Apply(s, a), t, id) {
      StaysClear(s, a, t, id);
    }
  }

  lemma NothingForgotten(s: State, a: Action)
    requires Inv(s) && Enabled(s, a)
    ensures var s' := Apply(s, a);
            && s.nextId <= s'.nextId && s.condemned <= s'.condemned && s.recreated <= s'.recreated
            && (forall id :: id in s.owners ==> id in s'.owners && s'.owners[id] == s.owners[id])
            && (forall f :: f in s'.fips ==> if f in s.fips then s'.fips[f] == s.fips[f] else s.nextId <= f)
  {
    if OnServices(a) {
      FrameServices(s, a);
    } else if OnReleases(a) {
      FrameReleases(s, a);
    } else if OnReads(a) {
      FrameReads(s, a);
    } else {
      FrameCloud(s, a);
      Rely.FIPsBounded(s);
      Rely.OnlyNewIds(s, a);
    }
  }

  /** An address comes back to a freed port only in a pass that does not clean up. */
  lemma StaysClear(s: State, a: Action, t: string, id: nat)
    requires Inv(s) && Enabled(s, a) && OfTenant(s, t, id) && Clear(s, t, id)
    ensures Clear(Apply(s, a), t, id)
  {
    assert ReleaseOk(s, t);
    hide Inv;
    if OnServices(a) {
      FrameServices(s, a);
    } else if OnReleases(a) {
      FrameReleases(s, a);
    } else if OnReads(a) {
      FrameReads(s, a);
      ClearByReads(s, a, t, id);
    } else {
      FrameCloud(s, a);
      ClearInCloud(s, a, t, id);
    }
  }

  lemma ClearByReads(s: State, a: Action, t: string, id: nat)
    requires OnReads(a) && MayOnReads(s, a) && ReleaseOk(s, t) && t in s.condemned && Clear(s, t, id)
    ensures Clear(OnReadsNext(s, a), t, id)
  {
  }

  lemma ClearInCloud(s: State, a: Action, t: string, id: nat)
    requires OnCloud(a) && MayOnCloud(s, a) && OfTenant(s, t, id) && Clear(s, t, id)
    ensures Clear(OnCloudNext(s, a), t, id)
  {
  }

  // ---------------------------------------------------------------- requests

  predicate Accepts(s: State, a: Action) {
    match a
    case AddClusterFinalizer(t, _) => t in s.releases && !s.releases[t].deleting
    case DropClusterFinalizer(t, seen) =>
      t in s.releases && s.releases[t].deleting && seen - {CLUSTER_FINALIZER} <= s.releases[t].finalizers
    case SweepLB(_, id) => id in s.lbs && s.lbs[id].status in {Active, Status.Error}
    case SweepFIP(_, id) => id in s.fips
    case _ => false
  }

  /** The pass may ask for the deletion of what it has seen to be the tenant's. */
  ghost predicate Safe(s: State, a: Action) {
    forall s' :: Inv(s') && Evolves(s, s') && Accepts(s', a) ==> Enabled(s', a)
  }

  lemma SafeSweepLB(s: State, t: string, id: nat)
    requires OfTenant(s, t, id) && Clear(s, t, id)
    ensures Safe(s, SweepLB(t, id))
  {
  }

  lemma SafeSweepFIP(s: State, t: string, f: nat)
    requires t in s.condemned && f in s.fips && f < s.nextId && s.fips[f].owner.cluster == t
    ensures Safe(s, SweepFIP(t, f))
  {
  }

  lemma SafeFinalizers(s: State, t: string, seen: set<string>)
    ensures Safe(s, AddClusterFinalizer(t, seen)) && Safe(s, DropClusterFinalizer(t, seen))
  {
  }

  /** The prefix of the sweep selects exactly the tenant's balancers. */
  lemma PrefixIsTenant(o: Owner, t: string)
    requires o.Wf() && t != "" && '/' !in t
    ensures ClusterPrefix(t) <= o.Tag() <==> o.cluster == t
  {
    ParseIffPrinted(o.Tag(), o);
    ParsersAgree(o.Tag());
    ClusterPrefixIff(t, o.Tag());
  }

  // ---------------------------------------------------------------- credentials

  /**
   Credentials for the sweep: the tenant's own, load balancers switched on or not, or any
   named sibling release's; when the listing of those, or the look at one that would do,
   fails, that counts as none.
   */
  ghost predicate HasCredentials(s: State, t: string, listed: bool) {
    exists u :: Lends(s, t, u, listed)
  }

  predicate Lends(s: State, t: string, u: string, listed: bool) {
    u in s.configs && s.configs[u].creds == Usable && (u == t || (listed && u != "" && u in s.releases))
  }

  // ---------------------------------------------------------------- what passes do

  predicate Marked(s: State, t: string) {
    t in s.releases && CLUSTER_FINALIZER in s.releases[t].finalizers
  }

  predicate AllLeaving(s: State, t: string) {
    forall id :: id in s.lbs && s.lbs[id].owner.cluster == t ==> s.lbs[id].status == PendingDelete
  }

  /** None of the tenant's balancers carries an address. */
  predicate NoAddresses(s: State, t: string) {
    forall id :: id in s.lbs && s.lbs[id].owner.cluster == t ==> PortFree(s, id)
  }

  predicate Deletable(status: Status) {
    status in {Active, Status.Error}
  }

  /** Octavia accepts the deletion of each of the tenant's balancers. */
  predicate Sweepable(s: State, t: string) {
    forall id :: id in s.lbs && s.lbs[id].owner.cluster == t ==> Deletable(s.lbs[id].status)
  }

  /** Every address of the tenant is on a balancer that is not being deleted. */
  ghost predicate Tidy(s: State, t: string) {
    forall f :: f in s.fips && s.fips[f].owner.cluster == t ==> Standing(s, s.fips[f].port, s.fips[f].owner)
  }

  /** With every request served, a pass over a marked release ends well in exactly this case. */
  ghost predicate CanFinish(s: State, t: string) {
    !(t in s.configs && s.configs[t].creds == Unusable) && (HasCredentials(s, t, true) ==> Sweepable(s, t))
  }

  /** The tenant's release lost the cluster finalizer, and maybe with it its existence; nothing else changed. */
  ghost predicate Released(a: State, b: State, t: string) {
    b == a.(releases := b.releases) && !Marked(b, t) && OneRelease(a, b, t)
  }

  /** Of the tenant's release only the cluster finalizer changed; it is gone only if it was waiting for nothing else. */
  ghost predicate OneRelease(a: State, b: State, t: string) {
    && (forall u :: u != t ==> (u in b.releases <==> u in a.releases)
                               && (u in a.releases ==> b.releases[u] == a.releases[u]))
    && (t in b.releases ==>
          && t in a.releases && b.releases[t].deleting == a.releases[t].deleting
          && b.releases[t].finalizers - {CLUSTER_FINALIZER} == a.releases[t].finalizers - {CLUSTER_FINALIZER})
    && (t in a.releases && t !in b.releases ==>
          a.releases[t].deleting && a.releases[t].finalizers == {CLUSTER_FINALIZER})
  }

  /** A balancer of the tenant was put on its way out, its port free; or it stays as it was. */
  predicate SweptLB(a: State, b: State, t: string, id: nat)
    requires id in a.lbs && id in b.lbs
  {
    || b.lbs[id] == a.lbs[id]
    || (a.lbs[id].owner.cluster == t && b.lbs[id] == a.lbs[id].(status := PendingDelete) && PortFree(b, id))
  }

  /** Only addresses bound to a balancer of the tenant went. */
  predicate SweptFIPs(a: State, b: State, t: string) {
    && (forall f :: f in b.fips ==> f in a.fips && b.fips[f] == a.fips[f])
    && (forall f :: f in a.fips && f !in b.fips ==>
          a.fips[f].port in a.lbs && a.lbs[a.fips[f].port].owner.cluster == t && a.fips[f].owner.cluster == t)
  }

  /** The sweep of a tenant: its balancers at most put on their way out and their addresses deleted, nothing else. */
  predicate SweptTo(a: State, b: State, t: string) {
    && b == a.(fips := b.fips, lbs := b.lbs, releases := b.releases)
    && b.lbs.Keys == a.lbs.Keys && (forall id :: id in a.lbs ==> SweptLB(a, b, t, id)) && SweptFIPs(a, b, t)
  }

  /** A finished pass over a marked release: swept with credentials at hand, not swept without; let go either way. */
  ghost predicate Terminated(a: State, b: State, t: string, credentials: bool) {
    && !Marked(b, t)
    && if credentials then AllLeaving(b, t) && NoAddresses(b, t) else b.lbs == a.lbs && b.fips == a.fips
  }

  /**
   A pass over a tenant's release, with the listing of the sibling releases served or
   not, touches beside that release only the tenant's balancers and the addresses on
   them, none while the release lives, and lets a release go only once it is
   terminating, and then swept if there were credentials and untouched if not.
   */
  ghost predicate ClusterPass(a: State, b: State, t: string, listed: bool) {
    && SweptTo(a, b, t) && OneRelease(a, b, t)
    && (t in a.releases && !a.releases[t].deleting ==> b.lbs == a.lbs && b.fips == a.fips)
    && (Marked(a, t) && !Marked(b, t) ==>
          a.releases[t].deleting && Terminated(a, b, t, HasCredentials(a, t, listed)))
  }

  // ---------------------------------------------------------------- the controller

  class Controller {
    const quiet: bool
    const reliable: bool
    var s: State
    ghost const origin: State
    ghost var log: seq<Action>
    // the tenant of the pass under way
    var over: string

    constructor (quiet: bool, reliable: bool, s: State)
      requires Inv(s)
      ensures Valid() && this.s == s && this.quiet == quiet && this.reliable == reliable && log == []
    {
      this.quiet, this.reliable, this.s := quiet, reliable, s;
      origin, log, over := s, [], "";
    }

    /** Everything that happened so far was a legal run of the protocol. */
    ghost predicate Lawful()
      reads `s, `log
    {
      Legal(origin, log) && s == After(origin, log)
    }

    ghost predicate Valid()
      reads this
    {
      Lawful() && Inv(s)
    }

    /** This controller acts, in a pass over one release. */
    method Do(a: Action)
      requires Valid() && Enabled(s, a) && OfCluster(a, over)
      modifies `s, `log
      ensures Valid() && s == Apply(old(s), a)
    {
      hide Inv, Enabled, Apply, Legal, After;
      StepKeepsInv(s, a);
      LegalSnoc(origin, log, a);
      s, log := Apply(s, a), log + [a];
    }

    /** Somebody else acts. */
    method Happen(a: Action)
      requires Valid() && Enabled(s, a) && !OfCluster(a, over) && !quiet
      modifies `s, `log
      ensures Valid() && s == Apply(old(s), a)
    {
      hide Inv, Enabled, Apply, Legal, After;
      StepKeepsInv(s, a);
      LegalSnoc(origin, log, a);
      s, log := Apply(s, a), log + [a];
    }

    method Ask() returns (ok: bool)
      requires Valid()
      modifies `s, `log
      ensures Valid() && Evolves(old(s), s)
      ensures quiet ==> s == old(s)
      ensures reliable ==> ok
    {
      hide Controller.Lawful, Inv, Evolves;
      ok := Answered(reliable);
      EvolvesRefl(s);
      if quiet {
        return;
      }
      var n: nat :| true;
      for i := 0 to n
        invariant Valid() && Evolves(old(s), s)
      {
        assert Enabled(s, SetConfig("", None));
        var a: Action :| Enabled(s, a) && !OfCluster(a, over);
        StepEvolves(s, a);
        EvolvesTrans(old(s), s, Apply(s, a));
        Happen(a);
      }
    }

    method Try(a: Action) returns (ok: bool, ghost mid: State)
      requires Valid() && Safe(s, a) && OfCluster(a, over)
      modifies `s, `log
      ensures Valid() && Inv(mid) && Evolves(old(s), mid) && Evolves(old(s), s)
      ensures quiet ==> mid == old(s)
      ensures s == mid || (Accepts(mid, a) && Enabled(mid, a) && s == Apply(mid, a))
      ensures ok ==> Accepts(mid, a) && Enabled(mid, a) && s == Apply(mid, a)
      ensures reliable && Accepts(mid, a) ==> ok
    {
      hide Controller.Lawful, Inv, Evolves, Enabled, Apply;
      ok := Ask();
      mid := s;
      var carriedOut: bool := *;
      if !Accepts(s, a) {
        return false, mid;
      }
      if ok || carriedOut {
        StepEvolves(s, a);
        EvolvesTrans(old(s), s, Apply(s, a));
        Do(a);
      }
    }

    // -------------------------------------------------------------- the sweep

    /** Deletes the address on the port of one of the tenant's balancers, if there is one. */
    method DeleteFloatingIP(t: string, id: nat) returns (ok: bool)
      requires Valid() && t == over && OfTenant(s, t, id)
      modifies `s, `log
      ensures Valid() && Evolves(old(s), s) && OfTenant(s, t, id) && (ok ==> Clear(s, t, id))
      ensures quiet ==> FreedAt(old(s), s, id) && (ok ==> PortFree(s, id)) && (reliable ==> ok)
    {
      hide Controller.Lawful, Inv, Evolves;
      ok := Ask();
      StillOfTenant(old(s), s, t, id);
      if !ok {
        return;
      }
      if exists f :: f in s.fips && s.fips[f].port == id {
        var f :| f in s.fips && s.fips[f].port == id;
        ghost var asked := s;
        ok := DropFIP(t, id, f);
        EvolvesTrans(old(s), asked, s);
      }
    }

    lemma StillOfTenant(a: State, b: State, t: string, id: nat)
      requires OfTenant(a, t, id) && Evolves(a, b)
      ensures OfTenant(b, t, id) && (Clear(a, t, id) ==> Clear(b, t, id))
    {
    }

    method DropFIP(t: string, id: nat, f: nat) returns (ok: bool)
      requires Valid() && t == over && OfTenant(s, t, id) && f in s.fips && s.fips[f].port == id
      modifies `s, `log
      ensures Valid() && Evolves(old(s), s) && OfTenant(s, t, id) && (ok ==> Clear(s, t, id))
      ensures quiet ==> FreedAt(old(s), s, id) && (ok ==> PortFree(s, id)) && (reliable ==> ok)
    {
      hide Controller.Lawful, Inv, Evolves;
      BoundToTenant(s, t, id, f);
      SafeSweepFIP(s, t, f);
      ghost var mid;
      ok, mid := Try(SweepFIP(t, f));
      StillOfTenant(old(s), s, t, id);
      if s != mid {
        SameAddress(old(s), mid, f);
        LastAddress(mid, t, id, f);
      }
    }

    lemma BoundToTenant(s: State, t: string, id: nat, f: nat)
      requires Inv(s) && OfTenant(s, t, id) && f in s.fips && s.fips[f].port == id
      ensures f < s.nextId && s.fips[f].owner.cluster == t
    {
    }

    lemma SameAddress(a: State, b: State, f: nat)
      requires Evolves(a, b) && f in a.fips && f in b.fips
      ensures b.fips[f] == a.fips[f]
    {
    }

    /** A port carries one address, so it is free when that is gone. */
    lemma LastAddress(s: State, t: string, id: nat, f: nat)
      requires Inv(s) && Enabled(s, SweepFIP(t, f)) && s.fips[f].port == id
      ensures var s' := Apply(s, SweepFIP(t, f)); FreedAt(s, s', id) && PortFree(s', id)
    {
    }

    /** Address, then balancer. */
    method SweepOne(t: string, id: nat, hasPort: bool) returns (ok: bool)
      requires Valid() && t == over && OfTenant(s, t, id) && (!hasPort ==> Clear(s, t, id))
      requires quiet ==> id in s.lbs && s.lbs[id].hasPort == hasPort
      modifies `s, `log
      ensures Valid() && Evolves(old(s), s)
      ensures quiet ==> Swept(old(s), s, id) && (ok ==> Finished(s, id) && Deletable(old(s).lbs[id].status))
      ensures quiet && reliable && Deletable(old(s).lbs[id].status) ==> ok
    {
      hide Controller.Lawful, Inv, Evolves, Clear;
      ok := true;
      EvolvesRefl(s);
      if hasPort {
        ok := DeleteFloatingIP(t, id);
        if !ok {
          return;
        }
      } else if quiet {
        Rely.NoPortNoFIP(s, id);
      }
      ghost var freed := s;
      ok := PutAway(t, id);
      EvolvesTrans(old(s), freed, s);
    }

    method PutAway(t: string, id: nat) returns (ok: bool)
      requires Valid() && t == over && OfTenant(s, t, id) && Clear(s, t, id)
      requires quiet ==> id in s.lbs && PortFree(s, id)
      modifies `s, `log
      ensures Valid() && Evolves(old(s), s)
      ensures quiet ==> s == old(s) || (id in s.lbs && s == SetStatus(old(s), id, PendingDelete))
      ensures quiet && ok ==> s == SetStatus(old(s), id, PendingDelete) && Deletable(old(s).lbs[id].status)
      ensures quiet && reliable && Deletable(old(s).lbs[id].status) ==> ok
    {
      hide Controller.Lawful, Inv, Evolves, Clear;
      SafeSweepLB(s, t, id);
      ghost var mid;
      ok, mid := Try(SweepLB(t, id));
    }

    /** The listed balancers, in any order. */
    method SweepListed(t: string, listed: map<nat, LB>) returns (ok: bool)
      requires Valid() && t == over && SeenAs(s, t, listed)
      requires quiet ==> forall id :: id in listed ==> id in s.lbs && s.lbs[id] == listed[id]
      modifies `s, `log
      ensures Valid()
      ensures quiet ==> SweepSoFar(old(s), s, t, listed, if ok then {} else listed.Keys)
      ensures quiet && ok ==> AllDeletable(listed, listed.Keys)
      ensures quiet && reliable && AllDeletable(listed, listed.Keys) ==> ok
    {
      hide Controller.Lawful, Inv, Evolves, Clear;
      ok := true;
      ghost var start := s;
      var todo := listed.Keys;
      while todo != {}
        invariant Valid() && t == over && SeenAs(s, t, listed) && todo <= listed.Keys
        invariant quiet ==> SweepSoFar(start, s, t, listed, todo) && Untouched(s, listed, todo)
        invariant quiet ==> AllDeletable(listed, listed.Keys - todo)
        decreases todo
      {
        var id :| id in todo;
        todo := todo - {id};
        ok := SweepNext(t, id, listed, start, todo);
        if !ok {
          return;
        }
      }
    }

    method SweepNext(t: string, id: nat, listed: map<nat, LB>, ghost start: State, ghost todo: set<nat>)
      returns (ok: bool)
      requires Valid() && t == over && SeenAs(s, t, listed) && id in listed && id !in todo
      requires quiet ==> SweepSoFar(start, s, t, listed, todo + {id}) && id in start.lbs && start.lbs[id] == listed[id]
      requires quiet ==> Untouched(s, listed, todo + {id})
      modifies `s, `log
      ensures Valid() && SeenAs(s, t, listed)
      ensures quiet ==> SweepSoFar(start, s, t, listed, if ok then todo else todo + {id})
      ensures quiet && ok ==> Untouched(s, listed, todo) && Deletable(listed[id].status)
      ensures quiet && reliable && Deletable(listed[id].status) ==> ok
    {
      hide Controller.Lawful, Inv, Evolves, Clear;
      ghost var before := s;
      assert quiet ==> SweptLB(start, s, t, id);
      ok := SweepOne(t, id, listed[id].hasPort);
      SeenKept(before, s, t, listed);
      if quiet {
        assert id in before.lbs && before.lbs[id].owner.cluster == t;
        OneMoreFinished(start, before, s, t, id, listed, todo, ok);
        StillUntouched(before, s, id, listed, todo);
      }
    }

    lemma StillUntouched(a: State, b: State, id: nat, listed: map<nat, LB>, todo: set<nat>)
      requires Untouched(a, listed, todo + {id}) && Swept(a, b, id) && id !in todo
      ensures Untouched(b, listed, todo)
    {
    }

    lemma SeenKept(a: State, b: State, t: string, listed: map<nat, LB>)
      requires SeenAs(a, t, listed) && Evolves(a, b)
      ensures SeenAs(b, t, listed)
    {
    }

    lemma OneMoreFinished(a: State, b: State, c: State, t: string, id: nat, listed: map<nat, LB>, todo: set<nat>,
                          ok: bool)
      requires SweepSoFar(a, b, t, listed, todo + {id}) && id in b.lbs && b.lbs[id].owner.cluster == t
      requires Inv(b) && Swept(b, c, id) && (ok ==> Finished(c, id))
      ensures SweepSoFar(a, c, t, listed, if ok then todo else todo + {id})
    {
      SweptFurther(a, b, c, t, id);
      forall x | Finished(b, x) ensures Finished(c, x) {
        StaysFinished(b, c, id, x);
      }
      hide SweptTo, Swept, Finished, Inv;
    }

    lemma StaysFinished(b: State, c: State, id: nat, x: nat)
      requires Swept(b, c, id) && Finished(b, x)
      ensures Finished(c, x)
    {
    }

    lemma SweptFurther(a: State, b: State, c: State, t: string, id: nat)
      requires SweptTo(a, b, t) && Inv(b) && Swept(b, c, id) && id in b.lbs && b.lbs[id].owner.cluster == t
      ensures SweptTo(a, c, t)
    {
      hide Inv, PortFree;
      assert SweptLB(a, b, t, id);
      forall x | x in a.lbs ensures x in c.lbs && SweptLB(a, c, t, x) {
        assert SweptLB(a, b, t, x);
        BalancerFurther(a, b, c, t, id, x);
      }
      AddressesFurther(a, b, c, t, id);
      hide SweptLB, SweptFIPs;
    }

    lemma AddressesFurther(a: State, b: State, c: State, t: string, id: nat)
      requires SweptFIPs(a, b, t) && Inv(b) && Swept(b, c, id)
      requires id in b.lbs && b.lbs[id].owner.cluster == t && id in a.lbs && a.lbs[id].owner.cluster == t
      ensures SweptFIPs(a, c, t)
    {
      forall f | f in b.fips && f !in c.fips ensures b.fips[f].port == id && b.fips[f].owner.cluster == t {
        assert FIPOk(b, f) && LBOk(b, id);
      }
      hide Inv, PortFree;
    }

    lemma BalancerFurther(a: State, b: State, c: State, t: string, id: nat, x: nat)
      requires x in a.lbs && x in b.lbs && SweptLB(a, b, t, x)
      requires Swept(b, c, id) && b.lbs[id].owner.cluster == t && id in a.lbs && a.lbs[id].owner.cluster == t
      ensures x in c.lbs && SweptLB(a, c, t, x)
    {
    }

    /** SweepClusterResources: every balancer with the tenant's prefix, and the tenant's group if nothing holds it. */
    method Sweep(t: string) returns (ok: bool)
      requires Valid() && t == over && t in s.condemned && t != "" && '/' !in t
      modifies `s, `log
      ensures Valid()
      ensures quiet ==> SweptTo(old(s), s, t) && s.releases == old(s).releases
      ensures quiet && ok ==> AllLeaving(s, t) && NoAddresses(s, t) && Sweepable(old(s), t)
      ensures quiet && reliable && Sweepable(old(s), t) ==> ok
    {
      hide Controller.Lawful, Inv, Evolves, Clear, SweptTo;
      ok := Ask();
      StillCondemned(old(s), s);
      if !ok {
        SweptNothing(s, t);
        return;
      }
      PrefixSelects(s, t);
      var listed := map id | id in s.lbs && ClusterPrefix(t) <= s.lbs[id].owner.Tag() :: s.lbs[id];
      ListedAreSeen(s, t, listed);
      ListedAreDeletable(s, t, listed);
      ghost var start := s;
      ok := SweepListed(t, listed);
      if quiet {
        SweptAll(start, s, t, listed, if ok then {} else listed.Keys);
      }
      if ok {
        ok := Answered(reliable);
      }
    }

    lemma PrefixSelects(s: State, t: string)
      requires Inv(s) && t != "" && '/' !in t
      ensures forall id :: id in s.lbs ==>
                             (ClusterPrefix(t) <= s.lbs[id].owner.Tag() <==> s.lbs[id].owner.cluster == t)
    {
      forall id | id in s.lbs ensures ClusterPrefix(t) <= s.lbs[id].owner.Tag() <==> s.lbs[id].owner.cluster == t {
        assert LBOk(s, id);
        PrefixIsTenant(s.lbs[id].owner, t);
      }
    }

    lemma ListedAreDeletable(s: State, t: string, listed: map<nat, LB>)
      requires forall id :: id in s.lbs && s.lbs[id].owner.cluster == t <==> id in listed
      requires forall id :: id in listed ==> listed[id] == s.lbs[id]
      ensures AllDeletable(listed, listed.Keys) <==> Sweepable(s, t)
    {
    }

    lemma StillCondemned(a: State, b: State)
      requires Evolves(a, b)
      ensures a.condemned <= b.condemned
    {
    }

    lemma ListedAreSeen(s: State, t: string, listed: map<nat, LB>)
      requires Inv(s) && t in s.condemned
      requires forall id :: id in listed ==> id in s.lbs && s.lbs[id] == listed[id] && listed[id].owner.cluster == t
      ensures SeenAs(s, t, listed)
    {
      Rely.LBsBounded(s);
      forall id | id in listed && !listed[id].hasPort ensures Clear(s, t, id) {
        Rely.NoPortNoFIP(s, id);
      }
    }

    lemma SweptNothing(s: State, t: string)
      ensures SweptTo(s, s, t)
    {
    }

    lemma SweptAll(a: State, b: State, t: string, listed: map<nat, LB>, todo: set<nat>)
      requires SweepSoFar(a, b, t, listed, todo)
      requires forall id :: id in a.lbs && a.lbs[id].owner.cluster == t ==> id in listed
      ensures SweptTo(a, b, t) && b.releases == a.releases && (todo == {} ==> AllLeaving(b, t) && NoAddresses(b, t))
    {
    }

    // -------------------------------------------------------------- the reconciler

    method Claim(t: string, release: Release) returns (ok: bool)
      requires Valid() && t == over
      requires quiet ==> t in s.releases && s.releases[t] == release && !release.deleting
      modifies `s, `log
      ensures Valid()
      ensures quiet ==> ClusterPass(old(s), s, t, true) && (ok ==> Marked(s, t))
    {
      hide Controller.Lawful, Inv, Evolves, ClusterPass;
      SafeFinalizers(s, t, release.finalizers);
      ghost var mid;
      ok, mid := Try(AddClusterFinalizer(t, release.finalizers));
      IdlePass(mid, t);
      if quiet && s != mid {
        Claimed(mid, t);
      }
    }

    lemma IdlePass(s: State, t: string)
      ensures ClusterPass(s, s, t, false) && ClusterPass(s, s, t, true)
    {
    }

    lemma Claimed(s: State, t: string)
      requires t in s.releases && Enabled(s, AddClusterFinalizer(t, s.releases[t].finalizers))
      ensures var s' := Apply(s, AddClusterFinalizer(t, s.releases[t].finalizers));
              ClusterPass(s, s', t, true) && Marked(s', t)
    {
    }

    method LetGo(t: string, seen: set<string>) returns (ok: bool)
      requires Valid() && t == over
      requires quiet ==> Marked(s, t) && s.releases[t].finalizers == seen
      modifies `s, `log
      ensures Valid()
      ensures quiet ==> s == old(s) || Released(old(s), s, t)
      ensures quiet && ok ==> Released(old(s), s, t)
      ensures quiet && reliable && t in old(s).releases && old(s).releases[t] == Release(true, seen) ==> ok
    {
      hide Controller.Lawful, Evolves, Released;
      SafeFinalizers(s, t, seen);
      ghost var mid;
      ok, mid := Try(DropClusterFinalizer(t, seen));
      if quiet && (s != mid || ok) {
        assert ReleaseOk(mid, t);
        IsReleased(mid, t);
      }
    }

    lemma IsReleased(s: State, t: string)
      requires ReleaseOk(s, t) && Marked(s, t) && Enabled(s, DropClusterFinalizer(t, s.releases[t].finalizers))
      ensures Released(s, Apply(s, DropClusterFinalizer(t, s.releases[t].finalizers)), t)
    {
    }

    /** One pass over a tenant's release: claim it while it lives, sweep and let go once it is going. */
    method Reconcile(t: string) returns (ok: bool, listed: bool)
      requires Valid() && '/' !in t
      modifies this
      ensures Valid() && (reliable ==> listed)
      ensures quiet ==> ClusterPass(old(s), s, t, listed)
      ensures quiet && Marked(old(s), t) && !Marked(s, t) ==>
                if exists u :: && u in old(s).configs && old(s).configs[u].creds == Usable
                               && (u == t || (listed && u != "" && u in old(s).releases))
                then forall id :: id in s.lbs && s.lbs[id].owner.cluster == t ==>
                       s.lbs[id].status == PendingDelete && forall f :: f in s.fips ==> s.fips[f].port != id
                else s.lbs == old(s).lbs && s.fips == old(s).fips
      ensures quiet && ok && t != "" && t in old(s).releases ==> (Marked(s, t) <==> !old(s).releases[t].deleting)
      ensures quiet && reliable && t != "" && Marked(old(s), t) && old(s).releases[t].deleting ==>
                (ok <==> CanFinish(old(s), t))
    {
      hide Controller.Lawful, Inv, ClusterPass, CanFinish;
      ok, listed := Pass(t);
      if quiet {
        LetGoOnlySwept(old(s), s, t, listed);
      }
    }

    lemma LetGoOnlySwept(a: State, b: State, t: string, listed: bool)
      requires ClusterPass(a, b, t, listed)
      ensures Marked(a, t) && !Marked(b, t) ==>
                if exists u :: && u in a.configs && a.configs[u].creds == Usable
                               && (u == t || (listed && u != "" && u in a.releases))
                then forall id :: id in b.lbs && b.lbs[id].owner.cluster == t ==>
                       b.lbs[id].status == PendingDelete && forall f :: f in b.fips ==> b.fips[f].port != id
                else b.lbs == a.lbs && b.fips == a.fips
    {
      hide SweptTo, OneRelease;
      LendersAre(a, t, listed);
    }

    lemma LendersAre(s: State, t: string, listed: bool)
      ensures HasCredentials(s, t, listed) <==>
              exists u :: && u in s.configs && s.configs[u].creds == Usable
                          && (u == t || (listed && u != "" && u in s.releases))
    {
      assert forall u :: Lends(s, t, u, listed) <==>
                         && u in s.configs && s.configs[u].creds == Usable
                         && (u == t || (listed && u != "" && u in s.releases));
    }

    method Pass(t: string) returns (ok: bool, listed: bool)
      requires Valid() && '/' !in t
      modifies this
      ensures Valid() && (reliable ==> listed)
      ensures quiet ==> ClusterPass(old(s), s, t, listed)
      ensures quiet && ok && t != "" && t in old(s).releases ==> (Marked(s, t) <==> !old(s).releases[t].deleting)
      ensures quiet && reliable && t != "" && Marked(old(s), t) && old(s).releases[t].deleting ==>
                (ok <==> CanFinish(old(s), t))
    {
      hide Controller.Lawful, Evolves, ClusterPass, Terminated, HasCredentials, CanFinish;
      over, listed := t, true;
      ok := Ask();
      IdlePass(s, t);
      if !ok || t !in s.releases || t == "" {
        return;
      }
      var release := s.releases[t];
      if !release.deleting {
        if CLUSTER_FINALIZER !in release.finalizers {
          ok := Claim(t, release);
        }
        return;
      }
      if CLUSTER_FINALIZER !in release.finalizers {
        return;
      }
      assert ReleaseOk(s, t);
      ok, listed := Terminate(t, release);
    }

    /**
     The tenant's own credentials, else any sibling's; an unusable configuration is an error, a
     missing one is not.
     */
    method FindCredentials(t: string) returns (ok: bool, credentials: bool, listed: bool)
      requires Valid() && t in s.condemned
      modifies `s, `log
      ensures Valid() && t in s.condemned && (quiet ==> s == old(s)) && (reliable ==> listed)
      ensures quiet && ok ==>
                (credentials <==>
                   exists u :: && u in s.configs && s.configs[u].creds == Usable
                               && (u == t || (listed && u != "" && u in s.releases)))
      ensures quiet && reliable ==> (ok <==> !(t in s.configs && s.configs[t].creds == Unusable))
    {
      hide Controller.Lawful, Inv, Evolves;
      credentials, listed := false, true;
      ok := Ask();
      StillCondemned(old(s), s);
      var found := ResolveConfig(s.configs, t);
      ConfigByInput(s.configs, t);
      if !ok || found == Broken {
        return false, false, true;
      }
      credentials := found != NotFound;
      if !credentials {
        credentials, listed := BorrowCredentials(t);
      }
      LendersAre(s, t, listed);
    }

    /**
     Looks at the sibling releases one after another, in any order, until one has credentials;
     one without a name is skipped, and one whose configuration cannot be read is passed over.
     */
    method BorrowCredentials(t: string) returns (found: bool, listed: bool)
      requires Valid() && t in s.condemned && !(t in s.configs && s.configs[t].creds == Usable)
      modifies `s, `log
      ensures Valid() && t in s.condemned && (quiet ==> s == old(s)) && (reliable ==> listed)
      ensures quiet ==> (found <==> HasCredentials(s, t, listed))
    {
      hide Controller.Lawful, Inv, Evolves, ResolveConfig;
      found := false;
      listed := Ask();
      StillCondemned(old(s), s);
      if !listed {
        return;
      }
      var todo := s.releases.Keys;
      while todo != {} && !found
        invariant Valid() && t in s.condemned && (quiet ==> s == old(s)) && (reliable ==> listed)
        invariant todo <= old(s).releases.Keys || !quiet
        invariant quiet && found ==> HasCredentials(s, t, true)
        invariant quiet && listed && !found ==> forall u :: Lends(s, t, u, true) ==> u in todo
        decreases todo
      {
        var u :| u in todo;
        todo := todo - {u};
        if u == "" {
          continue;
        }
        ghost var before := s;
        var answered := Ask();
        StillCondemned(before, s);
        ConfigByInput(s.configs, u);
        if answered {
          found := ResolveConfig(s.configs, u).Found?;
          assert quiet && found ==> Lends(s, t, u, true);
        } else {
          listed := false;
        }
      }
      listed := listed || found;
    }

    method Terminate(t: string, release: Release) returns (ok: bool, listed: bool)
      requires Valid() && t == over && '/' !in t && t != "" && t in s.condemned
      requires quiet ==> t in s.releases && s.releases[t] == release && release.deleting && Marked(s, t)
      modifies `s, `log
      ensures Valid() && (reliable ==> listed)
      ensures quiet ==> ClusterPass(old(s), s, t, listed) && (ok ==> !Marked(s, t))
      ensures quiet && reliable ==> (ok <==> CanFinish(old(s), t))
    {
      hide Controller.Lawful, Inv, Evolves, ClusterPass, Terminated, SweptTo, Released, AllLeaving, NoAddresses,
           Sweepable;
      var credentials;
      ok, credentials, listed := FindCredentials(t);
      LendersAre(s, t, listed);
      IdlePass(s, t);
      if !ok {
        return;
      }
      ghost var start := s;
      SweptNothing(s, t);
      if credentials {
        ok := SweepWithCredentials(t);
        if !ok {
          if quiet {
            SweepIsPass(start, s, s, t, listed);
          }
          return;
        }
      }
      ghost var swept := s;
      ok := LetGo(t, release.finalizers);
      if quiet {
        SweepIsPass(start, swept, s, t, listed);
      }
    }

    method SweepWithCredentials(t: string) returns (ok: bool)
      requires Valid() && t == over && t in s.condemned && t != "" && '/' !in t
      modifies `s, `log
      ensures Valid()
      ensures quiet ==> SweptTo(old(s), s, t) && s.releases == old(s).releases
      ensures quiet && ok ==> AllLeaving(s, t) && NoAddresses(s, t) && Sweepable(old(s), t)
      ensures quiet && reliable && Sweepable(old(s), t) ==> ok
    {
      hide Controller.Lawful, Inv, Evolves, SweptTo, Sweepable;
      ok := Ask();
      StillCondemned(old(s), s);
      SweptNothing(s, t);
      if ok {
        ok := Sweep(t);
      }
    }

    // -------------------------------------------------------------- to the end

    /** Octavia acts between passes. */
    method Advance(a: Action)
      requires Valid() && Enabled(s, a) && (a.Settle? || a.Vanish?)
      modifies `s, `log
      ensures Valid() && s == Apply(old(s), a)
    {
      hide Inv, Enabled, Apply, Legal, After;
      StepKeepsInv(s, a);
      LegalSnoc(origin, log, a);
      s, log := Apply(s, a), log + [a];
    }

    /** Octavia finishes what it is doing with the tenant's balancers. */
    method OctaviaSettles(t: string)
      requires Valid()
      modifies `s, `log
      ensures Valid() && SettledDown(old(s), s, t) && Sweepable(s, t)
    {
      hide Controller.Lawful, Inv, SettledDown, DoneWith;
      ghost var start := s;
      SettledRefl(s, t);
      var todo := set id | id in s.lbs && s.lbs[id].owner.cluster == t && !Deletable(s.lbs[id].status);
      while todo != {}
        invariant Valid() && SettledDown(start, s, t)
        invariant forall id :: id in s.lbs && s.lbs[id].owner.cluster == t && id !in todo ==>
                                 Deletable(s.lbs[id].status)
        decreases todo
      {
        var id :| id in todo;
        todo := todo - {id};
        if id in s.lbs && s.lbs[id].owner.cluster == t && !Deletable(s.lbs[id].status) {
          var a := if s.lbs[id].status == PendingDelete then Vanish(id) else Settle(id, Active);
          ghost var before := s;
          OctaviaSteps(s, id);
          Advance(a);
          SettledFurther(start, before, s, t, id);
        }
      }
    }

    lemma SettledRefl(s: State, t: string)
      ensures SettledDown(s, s, t)
    {
    }

    lemma OctaviaSteps(s: State, id: nat)
      requires id in s.lbs && !Deletable(s.lbs[id].status)
      ensures var a := if s.lbs[id].status == PendingDelete then Vanish(id) else Settle(id, Active);
              Enabled(s, a) && DoneWith(s, Apply(s, a), id)
    {
    }

    lemma SettledFurther(a: State, b: State, c: State, t: string, id: nat)
      requires SettledDown(a, b, t) && id in b.lbs && b.lbs[id].owner.cluster == t && !Deletable(b.lbs[id].status)
      requires DoneWith(b, c, id)
      ensures SettledDown(a, c, t)
    {
      assert Aged(a, b, t, id);
      assert c == b.(lbs := c.lbs) && c.lbs.Keys <= b.lbs.Keys;
      forall x | x in a.lbs ensures Aged(a, c, t, x) {
        assert Aged(a, b, t, x);
        AgedFurther(a, b, c, t, id, x);
      }
    }

    lemma AgedFurther(a: State, b: State, c: State, t: string, id: nat, x: nat)
      requires x in a.lbs && id in a.lbs && Aged(a, b, t, x) && Aged(a, b, t, id)
      requires id in b.lbs && b.lbs[id].owner.cluster == t && !Deletable(b.lbs[id].status) && DoneWith(b, c, id)
      ensures Aged(a, c, t, x)
    {
      OneSettles(b, c, id, x);
      hide DoneWith;
    }

    lemma OneSettles(b: State, c: State, id: nat, x: nat)
      requires id in b.lbs && DoneWith(b, c, id)
      ensures x != id ==> (x in c.lbs <==> x in b.lbs) && (x in b.lbs ==> c.lbs[x] == b.lbs[x])
      ensures if b.lbs[id].status == PendingDelete then id !in c.lbs
              else id in c.lbs && c.lbs[id] == b.lbs[id].(status := Active)
    {
    }

    /**
     The teardown ends: with requests served, the first pass after Octavia has settled
     lets a marked release go, and once Octavia is done again nothing of the tenant is
     left that credentials could be found for.
     */
    method Retire(t: string)
      requires Valid() && quiet && reliable && t != "" && '/' !in t
      requires t in s.releases && CLUSTER_FINALIZER in s.releases[t].finalizers && s.releases[t].deleting
      requires t in s.configs ==> s.configs[t].creds != Unusable
      modifies this
      ensures Valid() && Elsewhere(s, t) == Elsewhere(old(s), t)
      ensures t in s.releases ==> CLUSTER_FINALIZER !in s.releases[t].finalizers
      ensures (exists u :: && u in old(s).configs && old(s).configs[u].creds == Usable
                           && (u == t || (u != "" && u in old(s).releases))) ==>
                && (forall id :: id in s.lbs ==> s.lbs[id].owner.cluster != t)
                && (Tidy(old(s), t) ==> forall f :: f in s.fips ==> s.fips[f].owner.cluster != t)
    {
      hide Controller.Lawful, Inv, ClusterPass, SettledDown, Sweepable, Tidy, HasCredentials, Elsewhere, AllLeaving,
           NoAddresses;
      OctaviaSettles(t);
      ghost var settled := s;
      SettledKeeps(old(s), s, t);
      LendersAre(old(s), t, true);
      var ok, listed := Reconcile(t);
      ghost var swept := s;
      Finishes(settled, swept, t);
      OctaviaSettles(t);
      SettledKeeps(swept, s, t);
      if HasCredentials(settled, t, true) && Tidy(settled, t) {
        NothingRemains(settled, swept, s, t);
      }
    }

    /** What Octavia finishing means to the teardown. */
    lemma SettledKeeps(a: State, b: State, t: string)
      requires SettledDown(a, b, t) && Sweepable(b, t)
      ensures b.configs == a.configs && b.releases == a.releases && Elsewhere(b, t) == Elsewhere(a, t)
      ensures Tidy(a, t) ==> Tidy(b, t)
      ensures HasCredentials(b, t, true) == HasCredentials(a, t, true)
      ensures AllLeaving(a, t) ==> forall id :: id in b.lbs ==> b.lbs[id].owner.cluster != t
    {
      LendersAre(a, t, true);
      LendersAre(b, t, true);
    }

    lemma Finishes(a: State, b: State, t: string)
      requires ClusterPass(a, b, t, true) && Marked(a, t) && !Marked(b, t)
      ensures HasCredentials(a, t, true) ==> AllLeaving(b, t) && NoAddresses(b, t)
      ensures Elsewhere(b, t) == Elsewhere(a, t)
    {
    }

    lemma NothingRemains(a: State, b: State, c: State, t: string)
      requires ClusterPass(a, b, t, true) && SettledDown(b, c, t) && Tidy(a, t) && NoAddresses(b, t)
      ensures forall f :: f in c.fips ==> c.fips[f].owner.cluster != t
    {
    }

    lemma SweepIsPass(a: State, m: State, b: State, t: string, listed: bool)
      requires SweptTo(a, m, t) && m.releases == a.releases && (b == m || Released(m, b, t))
      requires t in a.releases && a.releases[t].deleting && Marked(a, t)
      requires b != m ==>
                 if HasCredentials(a, t, listed) then AllLeaving(m, t) && NoAddresses(m, t) else m == a
      ensures ClusterPass(a, b, t, listed) && (b == m ==> Marked(b, t)) && (Released(m, b, t) ==> !Marked(b, t))
    {
      hide HasCredentials;
    }
  }

  /** The listed balancers are the tenant's, there or gone by now; a port that never was carries no address. */
  ghost predicate SeenAs(s: State, t: string, listed: map<nat, LB>) {
    forall id :: id in listed ==>
                   OfTenant(s, t, id) && listed[id].owner.cluster == t && (!listed[id].hasPort ==> Clear(s, t, id))
  }

  /** A sweep that has all but `todo` of the listed balancers behind it. */
  ghost predicate SweepSoFar(a: State, b: State, t: string, listed: map<nat, LB>, todo: set<nat>) {
    SweptTo(a, b, t) && b.releases == a.releases && forall id :: id in listed && id !in todo ==> Finished(b, id)
  }

  /** Octavia is done with one balancer: gone if it was being deleted, else active. */
  predicate DoneWith(a: State, b: State, id: nat)
    requires id in a.lbs
  {
    if a.lbs[id].status == PendingDelete then b == a.(lbs := a.lbs - {id})
    else b == SetStatus(a, id, Active)
  }

  /** Only Octavia worked, on balancers of the tenant. */
  predicate SettledDown(a: State, b: State, t: string) {
    b == a.(lbs := b.lbs) && b.lbs.Keys <= a.lbs.Keys && forall id :: id in a.lbs ==> Aged(a, b, t, id)
  }

  /** A balancer being deleted is so still, or gone; any other only changed its status, and is not being deleted. */
  predicate Aged(a: State, b: State, t: string, id: nat)
    requires id in a.lbs
  {
    || (id in b.lbs && b.lbs[id] == a.lbs[id])
    || (a.lbs[id].owner.cluster == t
        && if a.lbs[id].status == PendingDelete then id !in b.lbs
           else id in b.lbs && b.lbs[id] == a.lbs[id].(status := Active))
  }

  predicate AllDeletable(listed: map<nat, LB>, ids: set<nat>) {
    forall id :: id in ids && id in listed ==> Deletable(listed[id].status)
  }

  /** These balancers are as they were listed. */
  predicate Untouched(s: State, listed: map<nat, LB>, ids: set<nat>) {
    forall id :: id in ids && id in listed ==> id in s.lbs && s.lbs[id] == listed[id]
  }

  /** The balancer is on its way out and its port carries no address. */
  predicate Finished(s: State, id: nat) {
    id in s.lbs && s.lbs[id].status == PendingDelete && PortFree(s, id)
  }

  /** Nothing but the address on this port may have gone. */
  predicate FreedAt(a: State, b: State, id: nat) {
    && b == a.(fips := b.fips)
    && (forall f :: f in b.fips ==> f in a.fips && b.fips[f] == a.fips[f])
    && (forall f :: f in a.fips && f !in b.fips ==> a.fips[f].port == id)
  }

  /** At most this balancer put on its way out, with its port free, and the address on its port gone. */
  predicate Swept(a: State, b: State, id: nat) {
    && b == a.(fips := b.fips, lbs := b.lbs) && id in a.lbs
    && (forall f :: f in b.fips ==> f in a.fips && b.fips[f] == a.fips[f])
    && (forall f :: f in a.fips && f !in b.fips ==> a.fips[f].port == id)
    && (b.lbs == a.lbs || (b.lbs == a.lbs[id := a.lbs[id].(status := PendingDelete)] && PortFree(b, id)))
  }
}
