/**
 The manager's own control flow over the steps of `Sessions`: one pass
 (`reconcileAll`), the teardown (`stopAll`) and the loop that runs passes one
 after another (`Start`), in loadbalancer-controller/internal/multicluster/manager.go.
 Goroutines of a phase take their steps in any order.
 */
module SessionManager {
  import opened Ids
  import opened Sessions
  import opened Text

  function With(s: State, stage: Stage): set<nat> {
    set id | id in s.sessions && s.sessions[id].stage == stage
  }

  function Waiters(s: State, p: nat): set<string> {
    if p in s.passes then set t | t in s.passes[p].building && s.passes[p].building[t] == Waiting else {}
  }

  /** Tenants whose published Session is already the wanted one. */
  function Unchanged(s: State, desired: map<string, string>): map<string, nat> {
    map t | t in s.table && t in desired && s.table[t] in s.sessions && s.sessions[s.table[t]].hash == desired[t]
      :: s.table[t]
  }

  ghost predicate Keeps(table: map<string, nat>, kept: map<string, nat>) {
    forall t :: t in kept ==> t in table && table[t] == kept[t]
  }

  /** A Session that moves on leaves its stage's set. */
  lemma MovesOn(s: State, e: Step, stage: Stage)
    requires Enabled(s, e) && (e.StopBegin? || e.StopEnd? || e.StartOk? || e.StartFail? || e.Publish?)
    requires s.sessions[e.id].stage == stage
    ensures With(Next(s, e), stage) < With(s, stage)
    ensures Next(s, e).passes.Keys == s.passes.Keys && Next(s, e).passes[e.p].phase == s.passes[e.p].phase
    ensures Next(s, e).passes[e.p].desired == s.passes[e.p].desired
    ensures !e.Publish? ==> Next(s, e).table == s.table
    ensures e.StopBegin? || e.StopEnd? ==> Next(s, e).passes == s.passes
    ensures e.StopEnd? ==> With(Next(s, e), ToStop(e.p)) == With(s, ToStop(e.p))
  {
    var s' := Next(s, e);
    assert e.id in With(s, stage) && e.id !in With(s', stage);
  }

  lemma SameWaiters(s: State, e: Step)
    requires Enabled(s, e) && (e.StartOk? || e.StartFail?)
    requires TaskIs(s, e.p, s.sessions[e.id].tenant, Handed(e.id))
    ensures Waiters(Next(s, e), e.p) == Waiters(s, e.p)
  {
  }

  lemma PublishKeeps(s: State, p: nat, id: nat, kept: map<string, nat>)
    requires Enabled(s, Publish(p, id)) && Keeps(s.table, kept)
    ensures Keeps(Next(s, Publish(p, id)).table, kept)
  {
  }

  lemma DiffKeeps(s: State, p: nat)
    requires Inv(s) && Enabled(s, Diff(p))
    ensures var desired, s' := s.passes[p].desired, Next(s, Diff(p));
            && Keeps(s'.table, Unchanged(s, desired)) && In(s', p, Draining) && s'.passes[p].desired == desired
            && s'.passes[p].building.Keys == desired.Keys - Unchanged(s, desired).Keys
            && forall t :: t in s'.passes[p].building ==> s'.passes[p].building[t] == Waiting
  {
    forall t | t in s.table ensures s.table[t] in s.sessions && s.sessions[s.table[t]].tenant == t {
      assert EntryOk(s, t);
    }
  }

  /** Builds fail for the faulty tenants only, and nothing of a faulty one was started. */
  ghost predicate Fated(s: State, p: nat, faulty: set<string>) {
    p in s.passes && forall t :: t in s.passes[p].building ==> TaskFated(s, p, t, faulty)
  }

  ghost predicate TaskFated(s: State, p: nat, t: string, faulty: set<string>)
    requires p in s.passes && t in s.passes[p].building
  {
    match s.passes[p].building[t]
    case Waiting => true
    case Handed(id) => At(s, id, Started(p)) ==> t !in faulty
    case Failed => t in faulty
    case Settled => t !in faulty
  }

  lemma FatedOn(s: State, e: Step, faulty: set<string>)
    requires Inv(s) && Enabled(s, e) && Fated(s, e.p, faulty)
    requires e.BuildFail? || e.Launch? || e.StartFail? || e.StartOk? || e.Publish? || e.Acquire?
    requires e.BuildFail? ==> e.t in faulty
    requires e.StartFail? ==> s.sessions[e.id].tenant in faulty
    requires e.StartOk? ==> s.sessions[e.id].tenant !in faulty
    ensures Fated(Next(s, e), e.p, faulty)
    ensures Next(s, e).passes[e.p].building.Keys == s.passes[e.p].building.Keys
  {
    assert PassOk(s, e.p);
    if e.StartFail? || e.StartOk? || e.Publish? {
      assert SessionOk(s, e.id);
    }
    hide Inv, PassOk, SessionOk, TaskOk, TaskFated;
    forall t | t in Next(s, e).passes[e.p].building ensures TaskFated(Next(s, e), e.p, t, faulty) {
      TaskFatedOn(s, e, t, faulty);
    }
  }

  lemma TaskFatedOn(s: State, e: Step, t: string, faulty: set<string>)
    requires Enabled(s, e) && e.p in s.passes && t in s.passes[e.p].building
    requires TaskOk(s, e.p, t) && TaskFated(s, e.p, t, faulty)
    requires e.BuildFail? || e.Launch? || e.StartFail? || e.StartOk? || e.Publish? || e.Acquire?
    requires e.BuildFail? ==> e.t in faulty
    requires e.StartFail? ==> s.sessions[e.id].tenant in faulty
    requires e.StartOk? ==> s.sessions[e.id].tenant !in faulty
    ensures TaskFated(Next(s, e), e.p, t, faulty)
  {
  }

  /** The listing of the Secrets, if it succeeds, and the tenants no Session can be built and started for. */
  datatype Round = Round(secrets: Option<map<string, string>>, faulty: set<string>)

  class Manager {
    var st: State

    ghost predicate Valid()
      reads this
    {
      Inv(st) && SoloInv(st) && Quiet(st)
    }

    constructor ()
      ensures Valid() && Init(st)
    {
      st := State(map[], map[], map[], None, true);
    }

    method Do(e: Step)
      requires Inv(st) && SoloInv(st) && Enabled(st, e)
      modifies this
      ensures st == Next(old(st), e) && Inv(st) && SoloInv(st)
    {
      StepKeepsInv(st, e);
      StepKeepsSolo(st, e);
      st := Next(st, e);
    }

    /**
     One pass over the listed Secrets; `None` is a failed listing. The table
     ends as wanted less the failed builds, which are those of the faulty tenants;
     and a tenant whose kubeconfig did not change keeps the very Session it had.
     */
    method ReconcileAll(secrets: Option<map<string, string>>, faulty: set<string>)
      returns (ok: bool, failed: set<string>)
      requires Valid()
      modifies this
      ensures Valid()
      ensures ok <==> secrets.Some?
      ensures !ok ==> st == old(st)
      ensures ok ==> failed <= secrets.value.Keys && Hashes(st) == secrets.value - failed
      ensures ok ==> forall t :: t in old(st).table && t in secrets.value && old(st).table[t] in old(st).sessions
                                 && old(st).sessions[old(st).table[t]].hash == secrets.value[t] ==>
                t in st.table && st.table[t] == old(st).table[t] && t !in failed
      ensures ok ==> forall t :: t in secrets.value
                                 && !(t in old(st).table && old(st).table[t] in old(st).sessions
                                      && old(st).sessions[old(st).table[t]].hash == secrets.value[t]) ==>
                (t in failed <==> t in faulty)
    {
      if secrets.None? {
        return false, {};
      }
      hide Inv, SoloInv, Quiet, Hashes;
      ghost var before := st;
      failed := Pass(secrets.value, faulty);
      KeptOrBuilt(before, st, secrets.value, faulty, failed);
      ok := true;
    }

    lemma KeptOrBuilt(a: State, b: State, listed: map<string, string>, faulty: set<string>, failed: set<string>)
      requires Keeps(b.table, Unchanged(a, listed)) && failed == listed.Keys * faulty - Unchanged(a, listed).Keys
      ensures forall t :: t in a.table && t in listed && a.table[t] in a.sessions
                          && a.sessions[a.table[t]].hash == listed[t] ==>
                t in b.table && b.table[t] == a.table[t] && t !in failed
      ensures forall t :: t in listed && !(t in a.table && a.table[t] in a.sessions
                                           && a.sessions[a.table[t]].hash == listed[t]) ==>
                (t in failed <==> t in faulty)
    {
    }

    /** The phases of a pass. */
    method Pass(desired: map<string, string>, faulty: set<string>) returns (failed: set<string>)
      requires Valid()
      modifies this
      ensures Valid() && failed <= desired.Keys && Hashes(st) == desired - failed
      ensures failed == desired.Keys * faulty - Unchanged(old(st), desired).Keys
      ensures Keeps(st.table, Unchanged(old(st), desired))
    {
      ghost var kept := Unchanged(st, desired);
      var p := Open(desired);
      StopAllOf(p);
      NothingBuiltYet(st, p, faulty);
      failed := Renew(p, kept, faulty);
    }

    /** Third and fourth phase. */
    method Renew(p: nat, ghost kept: map<string, nat>, faulty: set<string>) returns (failed: set<string>)
      requires Inv(st) && SoloInv(st) && In(st, p, Building) && Keeps(st.table, kept) && Fated(st, p, faulty)
      modifies this
      ensures Valid() && Keeps(st.table, kept)
      ensures Hashes(st) == old(st).passes[p].desired - failed
      ensures failed == old(st).passes[p].building.Keys * faulty
    {
      hide Inv, SoloInv, Keeps, Hashes, Fated;
      BuildAll(p, kept, faulty);
      FatedOn(st, Acquire(p), faulty);
      Do(Acquire(p));
      PublishAll(p, kept, faulty);
      failed := Finish(p, faulty);
    }

    method Finish(p: nat, ghost faulty: set<string>) returns (failed: set<string>)
      requires Inv(st) && SoloInv(st) && Enabled(st, Release(p)) && Fated(st, p, faulty)
      modifies this
      ensures Valid() && st.table == old(st).table
      ensures failed <= old(st).passes[p].desired.Keys && Hashes(st) == old(st).passes[p].desired - failed
      ensures failed == old(st).passes[p].building.Keys * faulty
    {
      PassResult(st, p);
      AllDecided(st, p, faulty);
      failed := FailedIn(st.passes[p]);
      ghost var before := st;
      Do(Release(p));
      assert forall q :: Active(before, q) ==> q == p by {
        assert Active(before, p);
      }
      assert forall q :: q in st.passes && q != p ==> !Active(before, q);
      assert Hashes(st) == Hashes(before);
    }

    lemma NothingBuiltYet(s: State, p: nat, faulty: set<string>)
      requires p in s.passes && forall t :: t in s.passes[p].building ==> s.passes[p].building[t] == Waiting
      ensures Fated(s, p, faulty)
    {
    }

    lemma AllDecided(s: State, p: nat, faulty: set<string>)
      requires Inv(s) && SoloInv(s) && Enabled(s, Release(p)) && Fated(s, p, faulty)
      ensures FailedIn(s.passes[p]) == s.passes[p].building.Keys * faulty
    {
      assert PassOk(s, p);
      forall t | t in s.passes[p].building ensures t in FailedIn(s.passes[p]) <==> t in faulty {
        assert TaskOk(s, p, t) && TaskFated(s, p, t, faulty);
      }
    }

    /** The fresh pass is the only one under way, so the lock is free. */
    method Open(desired: map<string, string>) returns (p: nat)
      requires Valid()
      modifies this
      ensures Inv(st) && SoloInv(st) && In(st, p, Draining) && st.passes[p].desired == desired
      ensures Keeps(st.table, Unchanged(old(st), desired))
      ensures st.passes[p].building.Keys == desired.Keys - Unchanged(old(st), desired).Keys
      ensures forall t :: t in st.passes[p].building ==> st.passes[p].building[t] == Waiting
    {
      ghost var free := FreshId(st.passes.Keys);
      assert free !in st.passes;
      p :| p !in st.passes;
      Do(Begin(p, desired));
      assert Active(st, p);
      MutexFree(st, p);
      assert Unchanged(st, desired) == Unchanged(old(st), desired);
      DiffKeeps(st, p);
      hide Inv, SoloInv, Next, Keeps, Unchanged;
      Do(Diff(p));
    }

    lemma MutexFree(s: State, p: nat)
      requires Inv(s) && SoloInv(s) && Active(s, p)
      ensures s.mutex == if In(s, p, Swapping) then Some(p) else None
    {
      assert PassOk(s, p);
      assert s.mutex.Some? ==> Active(s, s.mutex.value);
    }

    /** Second phase: the stale Sessions are stopped. */
    method StopAllOf(p: nat)
      requires Inv(st) && SoloInv(st) && In(st, p, Draining)
      modifies this
      ensures Inv(st) && SoloInv(st) && st.table == old(st).table
      ensures In(st, p, Building) && st.passes == old(st).passes[p := old(st).passes[p].(phase := Building)]
    {
      StopEach(p);
      Do(AllStopped(p));
    }

    /** One goroutine per Session taken out of the table, all awaited. */
    method StopEach(p: nat)
      requires Inv(st) && SoloInv(st) && Stops(st, p)
      modifies this
      ensures Inv(st) && SoloInv(st) && st.table == old(st).table && st.passes == old(st).passes && NoneToStop(st, p)
    {
      while With(st, ToStop(p)) != {} || With(st, Stopping(p)) != {}
        invariant Inv(st) && SoloInv(st) && st.table == old(st).table && st.passes == old(st).passes
        decreases With(st, ToStop(p)), With(st, Stopping(p))
      {
        if
        case With(st, ToStop(p)) != {} =>
          var id :| id in With(st, ToStop(p));
          MovesOn(st, StopBegin(p, id), ToStop(p));
          Do(StopBegin(p, id));
        case With(st, Stopping(p)) != {} =>
          var id :| id in With(st, Stopping(p));
          MovesOn(st, StopEnd(p, id), Stopping(p));
          Do(StopEnd(p, id));
      }
      assert forall id :: id in st.sessions ==> id !in With(st, ToStop(p)) && id !in With(st, Stopping(p));
    }

    /** Third phase: every build fails, or starts and then comes up or not. */
    method BuildAll(p: nat, ghost kept: map<string, nat>, faulty: set<string>)
      requires Inv(st) && SoloInv(st) && In(st, p, Building) && Keeps(st.table, kept) && Fated(st, p, faulty)
      modifies this
      ensures Inv(st) && SoloInv(st) && Enabled(st, Acquire(p)) && Keeps(st.table, kept) && Fated(st, p, faulty)
      ensures st.passes[p].desired == old(st).passes[p].desired
      ensures st.passes[p].building.Keys == old(st).passes[p].building.Keys
    {
      while Waiters(st, p) != {} || With(st, Launching(p)) != {}
        invariant Inv(st) && SoloInv(st) && In(st, p, Building) && Keeps(st.table, kept) && Fated(st, p, faulty)
        invariant st.passes[p].desired == old(st).passes[p].desired
        invariant st.passes[p].building.Keys == old(st).passes[p].building.Keys
        decreases Waiters(st, p), With(st, Launching(p))
      {
        if
        case Waiters(st, p) != {} => BuildOne(p, faulty);
        case With(st, Launching(p)) != {} => LaunchOne(p, faulty);
      }
      assert Active(st, p);
      MutexFree(st, p);
      forall t | t in st.passes[p].building ensures st.passes[p].building[t] != Waiting {
        assert t !in Waiters(st, p);
      }
      forall id | id in st.sessions ensures st.sessions[id].stage != Launching(p) {
        assert id !in With(st, Launching(p));
      }
    }

    /** A faulty tenant's Session cannot be built, or will not come up. */
    method BuildOne(p: nat, faulty: set<string>)
      requires Inv(st) && SoloInv(st) && In(st, p, Building) && Waiters(st, p) != {} && Fated(st, p, faulty)
      modifies this
      ensures Inv(st) && SoloInv(st) && In(st, p, Building) && st.table == old(st).table && Fated(st, p, faulty)
      ensures st.passes[p].desired == old(st).passes[p].desired
      ensures st.passes[p].building.Keys == old(st).passes[p].building.Keys
      ensures Waiters(st, p) < Waiters(old(st), p)
    {
      var t :| t in Waiters(st, p);
      ghost var before := st;
      var buildable: bool := *;
      if buildable || t !in faulty {
        assert PassOk(st, p) && TaskOk(st, p, t);
        ghost var free := FreshId(st.sessions.Keys);
        assert free !in st.sessions;
        var id: nat :| id !in st.sessions;
        FatedOn(st, Launch(p, t, id), faulty);
        Do(Launch(p, t, id));
      } else {
        FatedOn(st, BuildFail(p, t), faulty);
        Do(BuildFail(p, t));
      }
      assert t in Waiters(before, p) && t !in Waiters(st, p);
    }

    method LaunchOne(p: nat, faulty: set<string>)
      requires Inv(st) && SoloInv(st) && In(st, p, Building) && With(st, Launching(p)) != {} && Fated(st, p, faulty)
      modifies this
      ensures Inv(st) && SoloInv(st) && In(st, p, Building) && st.table == old(st).table && Fated(st, p, faulty)
      ensures st.passes[p].desired == old(st).passes[p].desired
      ensures st.passes[p].building.Keys == old(st).passes[p].building.Keys
      ensures Waiters(st, p) == Waiters(old(st), p) && With(st, Launching(p)) < With(old(st), Launching(p))
    {
      var id :| id in With(st, Launching(p));
      var cameUp := st.sessions[id].tenant !in faulty;
      assert SessionOk(st, id);
      var e := if cameUp then StartOk(p, id) else StartFail(p, id);
      MovesOn(st, e, Launching(p));
      SameWaiters(st, e);
      FatedOn(st, e, faulty);
      Do(e);
    }

    /** Fourth phase, under the lock; `NoDuplicateAlone` shows the duplicate branch is never taken here. */
    method PublishAll(p: nat, ghost kept: map<string, nat>, ghost faulty: set<string>)
      requires Inv(st) && SoloInv(st) && In(st, p, Swapping) && Keeps(st.table, kept) && Fated(st, p, faulty)
      modifies this
      ensures Inv(st) && SoloInv(st) && Enabled(st, Release(p)) && Keeps(st.table, kept) && Fated(st, p, faulty)
      ensures st.passes[p].desired == old(st).passes[p].desired
      ensures st.passes[p].building.Keys == old(st).passes[p].building.Keys
    {
      while With(st, Started(p)) != {}
        invariant Inv(st) && SoloInv(st) && In(st, p, Swapping) && Keeps(st.table, kept) && Fated(st, p, faulty)
        invariant st.passes[p].desired == old(st).passes[p].desired
        invariant st.passes[p].building.Keys == old(st).passes[p].building.Keys
        decreases With(st, Started(p))
      {
        var id :| id in With(st, Started(p));
        MayPublish(st, p, id);
        MovesOn(st, Publish(p, id), Started(p));
        PublishKeeps(st, p, id, kept);
        FatedOn(st, Publish(p, id), faulty);
        Do(Publish(p, id));
      }
      MayRelease(st, p);
    }

    lemma MayPublish(s: State, p: nat, id: nat)
      requires Inv(s) && SoloInv(s) && In(s, p, Swapping) && id in With(s, Started(p))
      ensures Enabled(s, Publish(p, id))
    {
    }

    lemma MayRelease(s: State, p: nat)
      requires Inv(s) && SoloInv(s) && In(s, p, Swapping) && With(s, Started(p)) == {}
      ensures Enabled(s, Release(p))
    {
      assert Active(s, p) && Alone(s, p);
      forall id | id in s.sessions ensures s.sessions[id].stage != Started(p) {
        assert id !in With(s, Started(p));
      }
    }

    /** Teardown: take every Session out of the table under the lock, then stop them all. */
    method StopAll()
      requires Valid()
      modifies this
      ensures Valid() && st.table == map[]
      ensures forall id :: id in st.sessions ==> st.sessions[id].stage == Stopped
    {
      ghost var free := FreshId(st.passes.Keys);
      assert free !in st.passes;
      var p: nat :| p !in st.passes;
      Do(Snapshot(p));
      StopEach(p);
      Do(Quit(p));
      forall id | id in st.sessions ensures st.sessions[id].stage == Stopped {
        NothingStranded(st, id);
      }
    }

    /** The loop, cut off after the given listings; whatever ends it, everything is torn down. */
    method Start(first: Round, later: seq<Round>) returns (ok: bool)
      requires Valid()
      modifies this
      ensures Valid() && st.table == map[] && ok == first.secrets.Some?
      ensures forall id :: id in st.sessions ==> st.sessions[id].stage == Stopped
    {
      var failed;
      ok, failed := ReconcileAll(first.secrets, first.faulty);
      if ok {
        for i := 0 to |later|
          invariant Valid()
        {
          var _, _ := ReconcileAll(later[i].secrets, later[i].faulty);
        }
      }
      StopAll();
    }
  }
}
