/**
 Passes that are overtaken by a teardown of their tenant (Reconcile of
 internal/controller/service_controller.go in loadbalancer-controller): with
 requests interleaved in any way, what a marked tenant still gets belongs to the
 one pass that had read its release alive before.
 */
module Stragglers {
  import opened Finalizers
  import opened Tags
  import opened Text

  /** Asks for a new balancer or address of this Service. */
  predicate Asks(a: Action, o: Owner) {
    (a.CreateLB? || a.CreateFIP?) && a.o == o
  }

  /** The tenant's release has been marked for deletion, and none of its name was created since. */
  predicate Marked(s: State, t: string) {
    t in s.condemned && t !in s.recreated
  }

  /** At `n` something new is asked for, for a tenant already marked. */
  ghost predicate Late(s: State, log: seq<Action>, o: Owner, n: nat)
    requires Legal(s, log) && n < |log|
  {
    Asks(log[n], o) && Marked(Before(s, log, n), o.cluster)
  }

  /** The pass that asks at `n` began at `k`, and at `m` it read the release alive and not yet marked. */
  ghost predicate OfPass(s: State, log: seq<Action>, o: Owner, k: nat, m: nat, n: nat)
    requires Legal(s, log) && n < |log|
  {
    && k < m < n && log[k] == ReadService(o) && log[m] == ReadRelease(o.cluster)
    && (forall i :: k < i < n ==> !(log[i].ReadService? && log[i].o.cluster == o.cluster))
    && !Terminating(Before(s, log, m), o.cluster) && o.cluster !in Before(s, log, m).condemned
  }

  /** Marks and re-creations are never forgotten. */
  lemma {:induction false} NeverForgotten(s: State, log: seq<Action>, i: nat, j: nat)
    requires Legal(s, log) && i <= j <= |log|
    ensures Before(s, log, i).condemned <= Before(s, log, j).condemned
    ensures Before(s, log, i).recreated <= Before(s, log, j).recreated
    decreases j
  {
    LegalPrefix(s, log, j);
    if i < j {
      NeverForgotten(s, log, i, j - 1);
      assert log[..j][..j - 1] == log[..j - 1];
      Grows(Before(s, log, j - 1), log[j - 1]);
    }
  }

  lemma Grows(s: State, a: Action)
    requires Enabled(s, a)
    ensures s.condemned <= Apply(s, a).condemned && s.recreated <= Apply(s, a).recreated
  {
    if OnServices(a) {
      FrameServices(s, a);
    } else if OnReleases(a) {
      FrameReleases(s, a);
    } else if OnReads(a) {
      FrameReads(s, a);
    } else {
      FrameCloud(s, a);
    }
  }

  /** The pass read a live release. */
  predicate SawLive(s: State, o: Owner) {
    Minds(s, o) && s.readings[o.cluster].live == Some(true)
  }

  /** What a pass has read it has read since it began, in the state of that moment. */
  lemma {:induction false} LiveWhen(s: State, log: seq<Action>, o: Owner, k: nat) returns (m: nat)
    requires Legal(s, log) && SawLive(After(s, log), o) && k < |log| && log[k] == ReadService(o)
    requires forall i :: k < i < |log| ==> !(log[i].ReadService? && log[i].o.cluster == o.cluster)
    ensures k < m < |log| && log[m] == ReadRelease(o.cluster) && !Terminating(Before(s, log, m), o.cluster)
    decreases |log|
  {
    var rest, a := log[..|log| - 1], log[|log| - 1];
    var was := After(s, rest);
    if |rest| > k && SawLive(was, o) {
      m := LiveWhen(s, rest, o, k);
      assert rest[..m] == log[..m];
    } else {
      m := |rest|;
      assert log[..m] == rest;
      NewlyLive(was, a, o);
    }
  }

  lemma NewlyLive(s: State, a: Action, o: Owner)
    requires Enabled(s, a) && SawLive(Apply(s, a), o)
    requires !(a.ReadService? && a.o.cluster == o.cluster && a != ReadService(o))
    requires a == ReadService(o) || !SawLive(s, o)
    ensures a == ReadRelease(o.cluster) && !Terminating(s, o.cluster)
  {
    if OnServices(a) {
      FrameServices(s, a);
    } else if OnReleases(a) {
      FrameReleases(s, a);
    } else if OnCloud(a) {
      FrameCloud(s, a);
    }
  }

  /** Whatever is asked for a marked tenant, the pass that asks read the release before the marking. */
  lemma PassIsOlder(s: State, log: seq<Action>, o: Owner, n: nat) returns (k: nat, m: nat)
    requires Inv(s) && s.readings == map[] && Legal(s, log) && n < |log| && Late(s, log, o, n)
    ensures OfPass(s, log, o, k, m, n)
  {
    hide Legal, After, SawLive, Inv, Terminating;
    var past := log[..n];
    LegalPrefix(s, log, n);
    MayAsk(s, log, o, n);
    k, m := LivePass(s, past, o);
    assert past[..m] == log[..m];
    NotYetMarked(s, log, o.cluster, m, n);
  }

  lemma LivePass(s: State, log: seq<Action>, o: Owner) returns (k: nat, m: nat)
    requires Legal(s, log) && s.readings == map[] && SawLive(After(s, log), o)
    ensures k < m < |log| && log[k] == ReadService(o) && log[m] == ReadRelease(o.cluster)
    ensures forall i :: k < i < |log| ==> !(log[i].ReadService? && log[i].o.cluster == o.cluster)
    ensures !Terminating(Before(s, log, m), o.cluster)
  {
    hide Legal, After;
    k := ReadAt(s, log, o);
    m := LiveWhen(s, log, o, k);
  }

  /** A release seen alive is not marked yet, if the tenant is marked later and not created again. */
  lemma NotYetMarked(s: State, log: seq<Action>, t: string, m: nat, n: nat)
    requires Inv(s) && Legal(s, log) && m <= n <= |log|
    requires !Terminating(Before(s, log, m), t) && Marked(Before(s, log, n), t)
    ensures t !in Before(s, log, m).condemned
  {
    hide Legal, After;
    LegalPrefix(s, log, m);
    RunKeepsInv(s, log[..m]);
    NeverForgotten(s, log, m, n);
    assert ReleaseOk(Before(s, log, m), t);
  }

  lemma MayAsk(s: State, log: seq<Action>, o: Owner, n: nat)
    requires Legal(s, log) && n < |log| && Asks(log[n], o)
    ensures SawLive(Before(s, log, n), o)
  {
    LegalPrefix(s, log, n + 1);
    assert log[..n + 1][..n] == log[..n];
    assert Enabled(Before(s, log, n), log[n]);
  }

  /**
   In every run, with requests interleaved in any way: all that is asked for a
   tenant whose release is marked, and not created again, is for one Service, in
   the one pass that read the release before the marking.
   */
  lemma OneStraggler(s: State, log: seq<Action>, o: Owner, p: Owner, x: nat, y: nat) returns (k: nat, m: nat)
    requires Fresh(s) && Legal(s, log) && x <= y < |log| && o.cluster == p.cluster
    requires Late(s, log, o, x) && Late(s, log, p, y)
    ensures o == p && OfPass(s, log, o, k, m, x) && OfPass(s, log, o, k, m, y)
  {
    k, m := PassIsOlder(s, log, o, x);
    var k2, m2 := PassIsOlder(s, log, p, y);
    if k2 > k {
      assert k2 >= x;
      NeverForgotten(s, log, x, m2);
    }
    assert k2 == k;
  }
}
