/**
 Tearing a tenant down: what undisturbed passes of both reconcilers of
 loadbalancer-controller (internal/controller) guarantee in any order, with users
 and Octavia acting between passes. `Leaks.InterleavedPassLeaks` says why passes
 must not be interleaved.
 */
module Teardown {
  import opened ClusterController
  import opened Finalizers
  import opened Leaks
  import opened Listeners
  import opened Rely
  import opened ServiceController
  import opened Tags

  /** Users and Octavia. */
  predicate OfNobody(a: Action) {
    a.EditService? || a.DeleteService? || a.SetConfig? || a.EditRelease? || a.DeleteRelease? || a.Settle? || a.Vanish?
  }

  /** A release of a tenant that was torn down is not created again under the same name. */
  predicate Recreates(s: State, a: Action) {
    a.EditRelease? && a.t !in s.releases && a.t in s.condemned
  }

  ghost predicate Outside(a: State, b: State) {
    exists act :: OfNobody(act) && Enabled(a, act) && !Recreates(a, act) && b == Apply(a, act)
  }

  ghost predicate Follows(a: State, b: State) {
    Outside(a, b) || (exists o :: ServicePass(a, b, o)) || (exists t, listed :: ClusterPass(a, b, t, listed))
  }

  /** Atomic passes and other steps, each of which keeps the invariant of the protocol. */
  ghost predicate IsRun(run: seq<State>) {
    (forall i :: 0 <= i < |run| ==> Inv(run[i])) && forall i :: 0 < i < |run| ==> Follows(run[i - 1], run[i])
  }

  predicate Going(s: State, t: string) {
    (t in s.releases ==> s.releases[t].deleting) && t in s.condemned
  }

  /** On its way out, or with an error that Octavia ran into while deleting it. */
  predicate LeavingOrFailed(status: Status) {
    status in {PendingDelete, Status.Error}
  }

  /** No balancer or address of the tenant is new, and no balancer on its way out came back. */
  ghost predicate NothingNew(a: State, b: State, t: string) {
    && (forall id :: id in b.lbs && b.lbs[id].owner.cluster == t ==> SameBalancer(a, b, id))
    && (forall f :: f in b.fips && b.fips[f].owner.cluster == t ==> f in a.fips && b.fips[f] == a.fips[f])
  }

  predicate SameBalancer(a: State, b: State, id: nat)
    requires id in b.lbs
  {
    && id in a.lbs && a.lbs[id].owner == b.lbs[id].owner && a.lbs[id].hasPort == b.lbs[id].hasPort
    && (LeavingOrFailed(a.lbs[id].status) ==> LeavingOrFailed(b.lbs[id].status))
  }

  /** Every address is on a standing balancer at the moment the release is marked for deletion for the first time. */
  lemma MarkingIsTidy(s: State, t: string)
    requires Inv(s) && t !in s.condemned && t !in s.recreated && Enabled(s, DeleteRelease(t))
    ensures var s' := Apply(s, DeleteRelease(t)); Going(s', t) && Tidy(s', t)
  {
  }

  // ---------------------------------------------------------------- one step

  /** What a step of anybody means to a tenant that is going. */
  ghost predicate Keeps(a: State, b: State, t: string) {
    Going(b, t) && NothingNew(a, b, t) && (Tidy(a, t) ==> Tidy(b, t))
  }

  lemma OutsideStep(a: State, act: Action, t: string)
    requires Going(a, t) && OfNobody(act) && Enabled(a, act) && !Recreates(a, act)
    ensures Keeps(a, Apply(a, act), t)
  {
    if OnServices(act) {
      FrameServices(a, act);
    } else if OnReleases(act) {
      FrameReleases(a, act);
      StaysGoing(a, act, t);
    } else {
      FrameCloud(a, act);
      OctaviaStep(a, act, t);
    }
  }

  lemma StaysGoing(a: State, act: Action, t: string)
    requires Going(a, t) && OnReleases(act) && OfNobody(act) && MayOnReleases(a, act) && !Recreates(a, act)
    ensures Going(OnReleasesNext(a, act), t)
  {
  }

  lemma OctaviaStep(a: State, act: Action, t: string)
    requires (act.Settle? || act.Vanish?) && MayOnCloud(a, act)
    ensures var b := OnCloudNext(a, act); NothingNew(a, b, t) && (Tidy(a, t) ==> Tidy(b, t))
  {
  }

  lemma ServiceStep(a: State, b: State, o: Owner, t: string)
    requires Going(a, t) && ServicePass(a, b, o)
    ensures Keeps(a, b, t)
  {
  }

  lemma ClusterStep(a: State, b: State, u: string, listed: bool, t: string)
    requires Going(a, t) && ClusterPass(a, b, u, listed)
    ensures Keeps(a, b, t)
  {
  }

  lemma StepWhileGoing(a: State, b: State, t: string)
    requires Going(a, t) && Follows(a, b)
    ensures Keeps(a, b, t)
  {
    hide ServicePass, ClusterPass, Keeps;
    if o :| ServicePass(a, b, o) {
      ServiceStep(a, b, o, t);
    } else if u, listed :| ClusterPass(a, b, u, listed) {
      ClusterStep(a, b, u, listed, t);
    } else {
      var act :| OfNobody(act) && Enabled(a, act) && !Recreates(a, act) && b == Apply(a, act);
      OutsideStep(a, act, t);
    }
  }

  lemma KeepsTrans(a: State, b: State, c: State, t: string)
    requires Keeps(a, b, t) && Keeps(b, c, t)
    ensures Keeps(a, c, t)
  {
  }

  // ---------------------------------------------------------------- every run

  /** Once a tenant's release is marked, no pass gives that tenant a new balancer or address. */
  lemma {:induction false} NothingNewComes(run: seq<State>, i: nat, k: nat, t: string)
    requires IsRun(run) && i <= k < |run| && Going(run[i], t)
    ensures Keeps(run[i], run[k], t)
    decreases k
  {
    hide Inv, Follows;
    if i < k {
      NothingNewComes(run, i, k - 1, t);
      assert Follows(run[k - 1], run[k]);
      StepWhileGoing(run[k - 1], run[k], t);
      KeepsTrans(run[i], run[k - 1], run[k], t);
    }
  }

  /** Only a pass over the tenant's own release takes the cluster finalizer off. */
  lemma OnlyTheTeardown(a: State, b: State, t: string) returns (listed: bool)
    requires Follows(a, b) && Marked(a, t) && !Marked(b, t)
    ensures ClusterPass(a, b, t, listed)
    ensures t in a.configs && a.configs[t].creds == Usable ==> LetsGo(a, b, t, listed)
  {
    hide Aside, SweptTo;
    listed := false;
    if Outside(a, b) {
      var act :| OfNobody(act) && Enabled(a, act) && !Recreates(a, act) && b == Apply(a, act);
      StaysMarked(a, act, t);
    } else if o :| ServicePass(a, b, o) {
      SameReleases(a, b, o);
    } else if u, heard :| ClusterPass(a, b, u, heard) {
      assert u == t;
      listed := heard;
    }
  }

  lemma SameReleases(a: State, b: State, o: Owner)
    requires Aside(a, b, o)
    ensures b.releases == a.releases
  {
  }

  lemma StaysMarked(s: State, a: Action, t: string)
    requires OfNobody(a) && Enabled(s, a) && Marked(s, t)
    ensures Marked(Apply(s, a), t)
  {
  }

  /** A pass lets the tenant's release go with credentials at hand: its own, or borrowed from a listed sibling. */
  ghost predicate LetsGo(a: State, b: State, t: string, listed: bool) {
    && ClusterPass(a, b, t, listed) && Marked(a, t) && !Marked(b, t)
    && exists u :: && u in a.configs && a.configs[u].creds == Usable
                   && (u == t || (listed && u != "" && u in a.releases))
  }

  /**
   What is left of the tenant is what it had, its balancers on their way out, or failed at that,
   and no address on them.
   */
  ghost predicate OnlyRemains(a: State, b: State, t: string) {
    && (forall id :: id in b.lbs && b.lbs[id].owner.cluster == t ==> id in a.lbs && LeavingOrFailed(b.lbs[id].status))
    && NoAddresses(b, t)
    && (Tidy(a, t) ==> forall f :: f in b.fips ==> b.fips[f].owner.cluster != t)
  }

  /**
   The teardown: a release marked by `i` loses the cluster finalizer in the pass from
   `j` only with every balancer of the tenant on its way out and no address left on
   them; that pass leaves other tenants' balancers and addresses alone; and at any
   later `k` the tenant has nothing but balancers of `i`, all leaving or failed, with
   no address on them, and no address at all if at `i` each was on a standing balancer.
   */
  lemma TornDown(run: seq<State>, i: nat, j: nat, k: nat, t: string, listed: bool)
    requires IsRun(run) && i <= j < k < |run|
    ensures var a, b := run[j], run[j + 1];
            Going(run[i], t) && LetsGo(a, b, t, listed) ==>
              && (forall id :: id in b.lbs && b.lbs[id].owner.cluster == t ==>
                    b.lbs[id].status == PendingDelete && forall f :: f in b.fips ==> b.fips[f].port != id)
              && Elsewhere(b, t) == Elsewhere(a, t) && OnlyRemains(run[i], run[k], t)
  {
    hide Inv, Follows, Keeps, OnlyRemains, Elsewhere, LetsGo;
    assert Follows(run[j], run[j + 1]) && Inv(run[k]);
    if Going(run[i], t) && LetsGo(run[j], run[j + 1], t, listed) {
      LeavesOthers(run[j], run[j + 1], t, listed);
      NothingNewComes(run, i, j + 1, t);
      StillGoing(run[i], run[j + 1], t);
      NothingNewComes(run, j + 1, k, t);
      OnlyRemainsLater(run[i], run[j + 1], run[k], t);
    }
  }

  lemma StillGoing(a: State, b: State, t: string)
    requires Keeps(a, b, t)
    ensures Going(b, t)
  {
  }

  lemma LeavesOthers(a: State, b: State, t: string, listed: bool)
    requires LetsGo(a, b, t, listed)
    ensures Elsewhere(b, t) == Elsewhere(a, t) && AllLeaving(b, t) && NoAddresses(b, t)
  {
    var u :| u in a.configs && a.configs[u].creds == Usable && (u == t || (listed && u != "" && u in a.releases));
    assert Lends(a, t, u, listed);
  }

  lemma OnlyRemainsLater(a: State, b: State, c: State, t: string)
    requires Keeps(a, b, t) && Keeps(b, c, t) && AllLeaving(b, t) && NoAddresses(b, t) && Inv(c)
    ensures OnlyRemains(a, c, t)
  {
  }

  // ---------------------------------------------------------------- it does happen

  /** A tenant with one claimed Service, its balancer active with an address, and its release marked for deletion. */
  function AboutToGo(o: Owner): State {
    Marking(WithAddress(WithLB(Looked(o), o, Active), o), o.cluster)
  }

  lemma CanBeAboutToGo(o: Owner) returns (log: seq<Action>)
    requires o.Wf()
    ensures Fresh(Empty()) && Leads(log, AboutToGo(o))
  {
    hide Leads;
    var s := WithLB(Looked(o), o, Active);
    log := MakeRunning(o);
    log := Allocate(log, s, o);
    s := WithAddress(s, o);
    log := Mark(log, s, o.cluster);
  }

  /** Swept, address first, and let go. */
  function Gone(o: Owner): State {
    AboutToGo(o).(lbs := map[0 := NewLB(o, PendingDelete)], fips := map[], releases := map[])
  }

  lemma CanBeGone(o: Owner) returns (log: seq<Action>)
    requires o.Wf()
    ensures Leads(log, Gone(o))
  {
    hide Leads;
    log := CanBeAboutToGo(o);
    var s := AboutToGo(o);
    log := Then(log, s, SweepFIP(o.cluster, 1));
    assert s.fips - {1} == map[];
    s := s.(fips := map[]);
    log := PutAway(log, s, o);
    s := s.(lbs := map[0 := NewLB(o, PendingDelete)]);
    log := LetReleaseGo(log, s, o.cluster);
    assert s.releases - {o.cluster} == map[];
  }

  /** A marked release with an active balancer and an address is swept and let go in its next pass. */
  lemma LettingGoHappens(o: Owner)
    requires o.Wf()
    ensures var a, b := AboutToGo(o), Gone(o);
            && IsRun([a, b]) && Going(a, o.cluster) && Tidy(a, o.cluster) && LetsGo(a, b, o.cluster, true)
            && Standing(a, 0, o) && HasFIP(a, o) && AllLeaving(b, o.cluster) && !NoLB(b, o) && !HasFIP(b, o)
  {
    var a, b, t := AboutToGo(o), Gone(o), o.cluster;
    var log := CanBeAboutToGo(o);
    LeadsToInv(log, a);
    var longer := CanBeGone(o);
    LeadsToInv(longer, b);
    SweptAndGone(o);
    hide Inv, Leads, ClusterPass, AboutToGo, Gone, IsRun, Going, Tidy, LetsGo, Standing, HasFIP, AllLeaving, NoLB;
    RunOfTwo(a, b, t);
  }

  lemma RunOfTwo(a: State, b: State, t: string)
    requires Inv(a) && Inv(b) && ClusterPass(a, b, t, true)
    ensures IsRun([a, b])
  {
  }

  lemma SweptAndGone(o: Owner)
    ensures var a, b, t := AboutToGo(o), Gone(o), o.cluster;
            && ClusterPass(a, b, t, true) && Going(a, t) && Tidy(a, t) && LetsGo(a, b, t, true)
            && Standing(a, 0, o) && HasFIP(a, o) && AllLeaving(b, t) && !NoLB(b, o) && !HasFIP(b, o)
  {
    var a, b, t := AboutToGo(o), Gone(o), o.cluster;
    assert a.fips[1].owner == o && SweptLB(a, b, t, 0) && SweptFIPs(a, b, t);
    assert SweptTo(a, b, t) && t in a.configs && a.configs[t].creds == Usable;
    hide SweptTo;
    assert Lends(a, t, t, true);
    assert OneRelease(a, b, t);
  }
}
