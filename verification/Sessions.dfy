/**
 The session manager (loadbalancer-controller/internal/multicluster/manager.go):
 passes that diff the wanted tenants against the published Sessions, stop the
 stale ones and start new ones on parallel goroutines, and publish the result.
 Each step below is one action of one goroutine; passes may overlap unless `solo`.
 */
module Sessions {
  import opened Text

  /** What a Session is doing, and which pass has it in hand. */
  datatype Stage =
    | Published             // in the manager's table, running
    | ToStop(p: nat)        // taken out of the table by pass p, still running
    | Stopping(p: nat)      // being drained
    | Launching(p: nat)     // inside Start
    | Started(p: nat)       // running, the result of a build goroutine
    | Duplicate(p: nat)     // another Session was published first; being drained
    | Stopped
  {
    predicate Leaving() { ToStop? || Stopping? }
    predicate Built() { Launching? || Started? || Duplicate? }
  }

  datatype Session = Session(tenant: string, hash: string, stage: Stage)

  /** The build of one tenant within a pass. */
  datatype Task = Waiting | Handed(id: nat) | Failed | Settled

  /** `Emptying` is the one phase of the manager's teardown; the others are those of a pass, in order. */
  datatype Phase = Listed | Draining | Building | Swapping | Emptying | Done

  datatype Pass = Pass(desired: map<string, string>, phase: Phase, building: map<string, Task>)

  datatype State = State(sessions: map<nat, Session>, table: map<string, nat>, passes: map<nat, Pass>,
                         mutex: Option<nat>, solo: bool)

  predicate At(s: State, id: nat, stage: Stage) {
    id in s.sessions && s.sessions[id].stage == stage
  }

  predicate In(s: State, p: nat, phase: Phase) {
    p in s.passes && s.passes[p].phase == phase
  }

  /** Stopping the Sessions it took out of the table. */
  predicate Stops(s: State, p: nat) {
    In(s, p, Draining) || In(s, p, Emptying)
  }

  predicate TaskIs(s: State, p: nat, t: string, task: Task) {
    p in s.passes && t in s.passes[p].building && s.passes[p].building[t] == task
  }

  // ---------------------------------------------------------------- steps

  datatype Step =
    | Begin(p: nat, desired: map<string, string>) | Diff(p: nat) | Snapshot(p: nat)
    | StopBegin(p: nat, id: nat) | StopEnd(p: nat, id: nat) | AllStopped(p: nat) | Quit(p: nat)
    | BuildFail(p: nat, t: string) | Launch(p: nat, t: string, id: nat)
    | StartFail(p: nat, id: nat) | StartOk(p: nat, id: nat)
    | Acquire(p: nat) | Publish(p: nat, id: nat) | DropBegin(p: nat, id: nat) | DropEnd(p: nat, id: nat)
    | Release(p: nat)

  predicate Quiet(s: State) {
    forall p :: p in s.passes ==> s.passes[p].phase == Done
  }

  predicate NoneToStop(s: State, p: nat) {
    forall id :: id in s.sessions ==> s.sessions[id].stage !in {ToStop(p), Stopping(p)}
  }

  predicate Enabled(s: State, e: Step) {
    match e
    case Begin(p, _) => p !in s.passes && (s.solo ==> Quiet(s))
    case Diff(p) => In(s, p, Listed) && s.mutex == None
    case Snapshot(p) => p !in s.passes && s.mutex == None && (s.solo ==> Quiet(s))
    case StopBegin(p, id) => Stops(s, p) && At(s, id, ToStop(p))
    case StopEnd(p, id) => Stops(s, p) && At(s, id, Stopping(p))
    case AllStopped(p) => In(s, p, Draining) && NoneToStop(s, p)
    case Quit(p) => In(s, p, Emptying) && NoneToStop(s, p)
    case BuildFail(p, t) => In(s, p, Building) && TaskIs(s, p, t, Waiting)
    case Launch(p, t, id) =>
      In(s, p, Building) && TaskIs(s, p, t, Waiting) && t in s.passes[p].desired && id !in s.sessions
    case StartFail(p, id) =>
      In(s, p, Building) && At(s, id, Launching(p)) && TaskIs(s, p, s.sessions[id].tenant, Handed(id))
    case StartOk(p, id) => In(s, p, Building) && At(s, id, Launching(p))
    case Acquire(p) =>
      && In(s, p, Building) && s.mutex == None
      && (forall t :: t in s.passes[p].building ==> s.passes[p].building[t] != Waiting)
      && (forall id :: id in s.sessions ==> s.sessions[id].stage != Launching(p))
    case Publish(p, id) =>
      && In(s, p, Swapping) && At(s, id, Started(p)) && TaskIs(s, p, s.sessions[id].tenant, Handed(id))
      && s.sessions[id].tenant !in s.table
    case DropBegin(p, id) => In(s, p, Swapping) && At(s, id, Started(p)) && s.sessions[id].tenant in s.table
    case DropEnd(p, id) => In(s, p, Swapping) && At(s, id, Duplicate(p))
        && TaskIs(s, p, s.sessions[id].tenant, Handed(id))
    case Release(p) =>
      In(s, p, Swapping) && forall id :: id in s.sessions ==> s.sessions[id].stage !in {Started(p), Duplicate(p)}
  }

  function Move(s: State, id: nat, stage: Stage): State
    requires id in s.sessions
  {
    s.(sessions := s.sessions[id := s.sessions[id].(stage := stage)])
  }

  function SetPhase(s: State, p: nat, phase: Phase): State
    requires p in s.passes
  {
    s.(passes := s.passes[p := s.passes[p].(phase := phase)])
  }

  function SetTask(s: State, p: nat, t: string, task: Task): State
    requires p in s.passes
  {
    s.(passes := s.passes[p := s.passes[p].(building := s.passes[p].building[t := task])])
  }

  /** The published Session is no longer wanted, or its kubeconfig changed. */
  predicate Outdated(x: Session, desired: map<string, string>) {
    x.tenant !in desired || desired[x.tenant] != x.hash
  }

  /** Under the lock: take outdated Sessions out of the table and note what to build. */
  function AfterDiff(s: State, p: nat): State
    requires p in s.passes
  {
    var desired := s.passes[p].desired;
    var kept := map t | t in s.table && s.table[t] in s.sessions && !Outdated(s.sessions[s.table[t]], desired)
                  :: s.table[t];
    State(map id | id in s.sessions ::
            if s.sessions[id].stage == Published && Outdated(s.sessions[id], desired)
            then s.sessions[id].(stage := ToStop(p)) else s.sessions[id],
          kept,
          s.passes[p := Pass(desired, Draining, map t | t in desired && t !in kept :: Waiting)],
          s.mutex, s.solo)
  }

  /** Under the lock: take every Session out of the table. */
  function AfterSnapshot(s: State, p: nat): State {
    State(map id | id in s.sessions ::
            if s.sessions[id].stage == Published then s.sessions[id].(stage := ToStop(p)) else s.sessions[id],
          map[], s.passes[p := Pass(map[], Emptying, map[])], s.mutex, s.solo)
  }

  function Next(s: State, e: Step): State
    requires Enabled(s, e)
  {
    match e
    case Begin(p, desired) => s.(passes := s.passes[p := Pass(desired, Listed, map[])])
    case Diff(p) => AfterDiff(s, p)
    case Snapshot(p) => AfterSnapshot(s, p)
    case StopBegin(p, id) => Move(s, id, Stopping(p))
    case StopEnd(p, id) => Move(s, id, Stopped)
    case AllStopped(p) => SetPhase(s, p, Building)
    case Quit(p) => SetPhase(s, p, Done)
    case BuildFail(p, t) => SetTask(s, p, t, Failed)
    case Launch(p, t, id) =>
      SetTask(s, p, t, Handed(id)).(sessions := s.sessions[id := Session(t, s.passes[p].desired[t], Launching(p))])
    case StartFail(p, id) => SetTask(Move(s, id, Stopped), p, s.sessions[id].tenant, Failed)
    case StartOk(p, id) => Move(s, id, Started(p))
    case Acquire(p) => SetPhase(s, p, Swapping).(mutex := Some(p))
    case Publish(p, id) =>
      SetTask(Move(s, id, Published), p, s.sessions[id].tenant, Settled).(
        table := s.table[s.sessions[id].tenant := id])
    case DropBegin(p, id) => Move(s, id, Duplicate(p))
    case DropEnd(p, id) => SetTask(Move(s, id, Stopped), p, s.sessions[id].tenant, Settled)
    case Release(p) => SetPhase(s, p, Done).(mutex := None)
  }

  // ---------------------------------------------------------------- invariants

  /** Whoever has a Session in hand is at the right place of its pass. */
  ghost predicate SessionOk(s: State, id: nat)
    requires id in s.sessions
  {
    var x := s.sessions[id];
    match x.stage
    case Published => x.tenant in s.table && s.table[x.tenant] == id
    case ToStop(p) => Stops(s, p)
    case Stopping(p) => Stops(s, p)
    case Launching(p) => In(s, p, Building) && BuiltFor(s, p, id)
    case Started(p) => (In(s, p, Building) || In(s, p, Swapping)) && BuiltFor(s, p, id)
    case Duplicate(p) => In(s, p, Swapping) && BuiltFor(s, p, id)
    case Stopped => true
  }

  ghost predicate BuiltFor(s: State, p: nat, id: nat)
    requires p in s.passes && id in s.sessions
  {
    var x := s.sessions[id];
    x.tenant in s.passes[p].desired && s.passes[p].desired[x.tenant] == x.hash && TaskIs(s, p, x.tenant, Handed(id))
  }

  ghost predicate EntryOk(s: State, t: string)
    requires t in s.table
  {
    s.table[t] in s.sessions && s.sessions[s.table[t]].tenant == t && s.sessions[s.table[t]].stage == Published
  }

  ghost predicate TaskOk(s: State, p: nat, t: string)
    requires p in s.passes && t in s.passes[p].building
  {
    && t in s.passes[p].desired
    && match s.passes[p].building[t]
       case Waiting => s.passes[p].phase in {Draining, Building}
       case Handed(id) =>
         id in s.sessions && s.sessions[id].tenant == t && HandedOk(s.passes[p].phase, s.sessions[id].stage, p)
       case Failed => s.passes[p].phase in {Building, Swapping, Done}
       case Settled => s.passes[p].phase in {Swapping, Done}
  }

  predicate HandedOk(phase: Phase, stage: Stage, p: nat) {
    || (phase == Building && (stage == Launching(p) || stage == Started(p)))
    || (phase == Swapping && (stage == Started(p) || stage == Duplicate(p)))
  }

  ghost predicate PassOk(s: State, p: nat)
    requires p in s.passes
  {
    && (s.mutex == Some(p) <==> s.passes[p].phase == Swapping)
    && (s.passes[p].phase == Listed ==> s.passes[p].building == map[])
    && (forall t :: t in s.passes[p].building ==> TaskOk(s, p, t))
  }

  ghost predicate Inv(s: State) {
    && (forall id :: id in s.sessions ==> SessionOk(s, id))
    && (forall t :: t in s.table ==> EntryOk(s, t))
    && (forall p :: p in s.passes ==> PassOk(s, p))
    && (s.mutex.Some? ==> In(s, s.mutex.value, Swapping))
  }

  predicate Active(s: State, p: nat) {
    p in s.passes && s.passes[p].phase != Done
  }

  /** What a pass that runs alone keeps between its diff and its end. */
  ghost predicate Alone(s: State, p: nat)
    requires p in s.passes
  {
    && (forall t :: t in s.table ==> Wanted(s, p, t))
    && (forall t :: t in s.passes[p].desired && t !in s.table ==>
          t in s.passes[p].building && s.passes[p].building[t] != Settled)
    && (forall id :: id in s.sessions ==> s.sessions[id].stage != Duplicate(p))
    && (Stops(s, p) ==> LeaversApart(s))
  }

  /** A published Session is one the pass wants, and no build for its tenant is under way. */
  ghost predicate Wanted(s: State, p: nat, t: string)
    requires p in s.passes && t in s.table
  {
    && t in s.passes[p].desired
    && s.table[t] in s.sessions && s.sessions[s.table[t]].hash == s.passes[p].desired[t]
    && (t in s.passes[p].building ==> s.passes[p].building[t] == Settled)
  }

  predicate Leaving(s: State, id: nat, t: string) {
    id in s.sessions && s.sessions[id].stage.Leaving() && s.sessions[id].tenant == t
  }

  ghost predicate LeaversApart(s: State) {
    && (forall id, t :: Leaving(s, id, t) ==> t !in s.table)
    && (forall a, b, t :: Leaving(s, a, t) && Leaving(s, b, t) ==> a == b)
  }

  ghost predicate SoloInv(s: State) {
    && s.solo
    && (forall p, q :: Active(s, p) && Active(s, q) ==> p == q)
    && (forall p :: Active(s, p) && s.passes[p].phase != Listed ==> Alone(s, p))
  }

  // ---------------------------------------------------------------- every step keeps them

  predicate OnStops(e: Step) {
    e.Begin? || e.Diff? || e.Snapshot? || e.StopBegin? || e.StopEnd? || e.AllStopped? || e.Quit?
  }
  predicate Builds(e: Step) { e.BuildFail? || e.Launch? || e.StartFail? || e.StartOk? }
  predicate Swaps(e: Step) { e.Acquire? || e.Publish? || e.DropBegin? || e.DropEnd? || e.Release? }

  lemma OnlyOwnPass(s: State, e: Step)
    requires Enabled(s, e)
    ensures var s' := Next(s, e);
            && e.p in s'.passes && s'.solo == s.solo
            && (forall q :: q in s'.passes && q != e.p ==> q in s.passes && s'.passes[q] == s.passes[q])
  {
  }

  lemma SoloStep(s: State, s': State, p: nat)
    requires SoloInv(s) && s'.solo && Active(s, p) && p in s'.passes
    requires forall q :: q in s'.passes && q != p ==> q in s.passes && s'.passes[q] == s.passes[q]
    requires s'.passes[p].phase == Done || Alone(s', p)
    ensures SoloInv(s')
  {
    forall q | Active(s', q) ensures q == p {
      if q != p {
        assert Active(s, q);
      }
    }
  }

  lemma NobodyLeaving(s: State, p: nat)
    requires Inv(s) && SoloInv(s) && (In(s, p, Listed) || Quiet(s))
    ensures forall id :: id in s.sessions ==> !s.sessions[id].stage.Leaving()
  {
    forall id | id in s.sessions ensures !s.sessions[id].stage.Leaving() {
      assert SessionOk(s, id);
      if s.sessions[id].stage.Leaving() {
        assert Active(s, s.sessions[id].stage.p);
        assert !Quiet(s) && Active(s, p);
      }
    }
  }

  lemma SnapshotAlone(s: State, p: nat)
    requires Inv(s) && SoloInv(s) && Enabled(s, Snapshot(p))
    ensures SoloInv(Next(s, Snapshot(p)))
  {
    NobodyLeaving(s, p);
    var s' := Next(s, Snapshot(p));
    forall id, t | Leaving(s', id, t) ensures t in s.table && s.table[t] == id {
      assert SessionOk(s, id);
    }
    assert LeaversApart(s');
    assert forall q :: Active(s', q) ==> q == p;
    forall id | id in s'.sessions ensures s'.sessions[id].stage != Duplicate(p) {
      assert SessionOk(s, id);
    }
    assert Alone(s', p);
  }

  lemma DiffAlone(s: State, p: nat)
    requires Inv(s) && SoloInv(s) && Enabled(s, Diff(p))
    ensures Alone(Next(s, Diff(p)), p)
  {
    var s' := Next(s, Diff(p));
    DiffParts(s, p);
    forall t | t in s'.table ensures Wanted(s', p, t) {
      assert EntryOk(s, t);
    }
    forall id | id in s'.sessions ensures s'.sessions[id].stage != Duplicate(p) {
      assert SessionOk(s, id);
    }
    hide Inv, SoloInv, LeaversApart, Wanted;
  }

  lemma DiffParts(s: State, p: nat)
    requires Inv(s) && SoloInv(s) && Enabled(s, Diff(p))
    ensures LeaversApart(Next(s, Diff(p)))
  {
    NobodyLeaving(s, p);
    var s' := Next(s, Diff(p));
    forall id, t | Leaving(s', id, t) ensures t in s.table && s.table[t] == id && t !in s'.table {
      assert SessionOk(s, id);
    }
    hide Inv, SoloInv;
  }

  lemma StopsKeepSession(s: State, e: Step, id: nat)
    requires OnStops(e) && Enabled(s, e) && id in Next(s, e).sessions && (id in s.sessions ==> SessionOk(s, id))
    ensures SessionOk(Next(s, e), id)
  {
  }

  lemma StopsKeepTask(s: State, e: Step, q: nat, t: string)
    requires OnStops(e) && Enabled(s, e) && q in Next(s, e).passes && t in Next(s, e).passes[q].building
    requires q in s.passes && t in s.passes[q].building ==> TaskOk(s, q, t)
    ensures TaskOk(Next(s, e), q, t)
  {
  }

  lemma BuildsKeepSession(s: State, e: Step, id: nat)
    requires Builds(e) && Enabled(s, e) && id in Next(s, e).sessions && (id in s.sessions ==> SessionOk(s, id))
    ensures SessionOk(Next(s, e), id)
  {
  }

  lemma BuildsKeepTask(s: State, e: Step, q: nat, t: string)
    requires Builds(e) && Enabled(s, e) && q in Next(s, e).passes && t in Next(s, e).passes[q].building
    requires q in s.passes && t in s.passes[q].building ==> TaskOk(s, q, t)
    ensures TaskOk(Next(s, e), q, t)
  {
  }

  lemma SwapsKeepSession(s: State, e: Step, id: nat)
    requires Swaps(e) && Enabled(s, e) && id in Next(s, e).sessions && (id in s.sessions ==> SessionOk(s, id))
    ensures SessionOk(Next(s, e), id)
  {
  }

  lemma SwapsKeepTask(s: State, e: Step, q: nat, t: string)
    requires Swaps(e) && Enabled(s, e) && q in Next(s, e).passes && t in Next(s, e).passes[q].building
    requires q in s.passes && t in s.passes[q].building ==> TaskOk(s, q, t)
    ensures TaskOk(Next(s, e), q, t)
  {
  }

  lemma WantedKept(s: State, e: Step, t: string)
    requires Enabled(s, e) && !e.Diff? && !e.Begin? && !e.Snapshot? && t in Next(s, e).table
    requires t in s.table ==> Wanted(s, e.p, t)
    requires e.Publish? ==> BuiltFor(s, e.p, e.id)
    ensures Wanted(Next(s, e), e.p, t)
  {
  }

  lemma MissingKept(s: State, e: Step, t: string)
    requires Enabled(s, e) && !e.Diff? && !e.Begin? && !e.Snapshot? && t in s.passes[e.p].desired
              && t !in Next(s, e).table
    requires t !in s.table ==> t in s.passes[e.p].building && s.passes[e.p].building[t] != Settled
    requires !e.DropEnd?
    ensures t in Next(s, e).passes[e.p].building && Next(s, e).passes[e.p].building[t] != Settled
  {
  }

  lemma LeaversKept(s: State, e: Step)
    requires Enabled(s, e) && (e.StopBegin? || e.StopEnd?) && LeaversApart(s)
    ensures LeaversApart(Next(s, e))
  {
    var s' := Next(s, e);
    forall id, t | Leaving(s', id, t) ensures Leaving(s, id, t) {
    }
  }

  lemma TableKept(s: State, e: Step)
    requires Enabled(s, e) && !e.Diff? && !e.Begin? && !e.Snapshot? && !e.DropEnd? && Alone(s, e.p)
    requires e.Publish? ==> BuiltFor(s, e.p, e.id)
    ensures var s' := Next(s, e);
            && (forall t :: t in s'.table ==> Wanted(s', e.p, t))
            && (forall t :: t in s'.passes[e.p].desired && t !in s'.table ==>
                  t in s'.passes[e.p].building && s'.passes[e.p].building[t] != Settled)
  {
    var s' := Next(s, e);
    assert s'.passes[e.p].desired == s.passes[e.p].desired;
    forall t | t in s'.table ensures Wanted(s', e.p, t) {
      WantedKept(s, e, t);
    }
    forall t | t in s'.passes[e.p].desired && t !in s'.table
      ensures t in s'.passes[e.p].building && s'.passes[e.p].building[t] != Settled
    {
      MissingKept(s, e, t);
    }
  }

  lemma StepKeepsAlone(s: State, e: Step)
    requires Inv(s) && Enabled(s, e) && !e.Diff? && !e.Begin? && !e.Snapshot? && !e.Release? && Alone(s, e.p)
    ensures Alone(Next(s, e), e.p)
  {
    if e.DropBegin? || e.Publish? {
      assert SessionOk(s, e.id);
    }
    NoneDropped(s, e);
    TableKept(s, e);
    LeaversStayApart(s, e);
    OnlyOwnPass(s, e);
    hide Inv, Wanted, LeaversApart, Next, Enabled;
  }

  lemma LeaversStayApart(s: State, e: Step)
    requires Enabled(s, e) && !e.Diff? && !e.Begin? && !e.Snapshot? && Alone(s, e.p)
    ensures Stops(Next(s, e), e.p) ==> LeaversApart(Next(s, e))
  {
    if Stops(Next(s, e), e.p) {
      LeaversKept(s, e);
    }
  }

  /** A tenant with a published Session has no build under way. */
  lemma PublishedHasNoTask(s: State, p: nat)
    requires p in s.passes && Alone(s, p)
    ensures forall t, task :: t in s.table && TaskIs(s, p, t, task) ==> task == Settled
  {
  }

  lemma NoneDropped(s: State, e: Step)
    requires Inv(s) && Enabled(s, e) && !e.Diff? && !e.Begin? && !e.Snapshot? && Alone(s, e.p)
    ensures forall id :: id in Next(s, e).sessions ==> Next(s, e).sessions[id].stage != Duplicate(e.p)
  {
  }

  lemma EntryKept(s: State, e: Step, t: string)
    requires Inv(s) && Enabled(s, e) && t in Next(s, e).table
    ensures EntryOk(Next(s, e), t)
  {
    assert t in s.table ==> EntryOk(s, t);
    match e {
      case Begin(_, _) =>
      case Diff(_) =>
      case Snapshot(_) =>
      case StopBegin(_, _) =>
      case StopEnd(_, _) =>
      case AllStopped(_) =>
      case Quit(_) =>
      case BuildFail(_, _) =>
      case Launch(_, _, _) =>
      case StartFail(_, _) =>
      case StartOk(_, _) =>
      case Acquire(_) =>
      case Publish(_, _) =>
      case DropBegin(_, _) =>
      case DropEnd(_, _) =>
      case Release(_) =>
    }
  }

  lemma SessionsKept(s: State, e: Step)
    requires Inv(s) && Enabled(s, e)
    ensures forall id :: id in Next(s, e).sessions ==> SessionOk(Next(s, e), id)
  {
    var s' := Next(s, e);
    forall id | id in s'.sessions ensures SessionOk(s', id) {
      if OnStops(e) {
        StopsKeepSession(s, e, id);
      } else if Builds(e) {
        BuildsKeepSession(s, e, id);
      } else {
        SwapsKeepSession(s, e, id);
      }
    }
  }

  lemma TasksKept(s: State, e: Step)
    requires Inv(s) && Enabled(s, e)
    ensures forall q, t :: q in Next(s, e).passes && t in Next(s, e).passes[q].building ==> TaskOk(Next(s, e), q, t)
  {
    var s' := Next(s, e);
    forall q, t | q in s'.passes && t in s'.passes[q].building ensures TaskOk(s', q, t) {
      assert q in s.passes ==> PassOk(s, q);
      if OnStops(e) {
        StopsKeepTask(s, e, q, t);
      } else if Builds(e) {
        BuildsKeepTask(s, e, q, t);
      } else {
        SwapsKeepTask(s, e, q, t);
      }
    }
  }

  ghost predicate MutexOk(s: State, q: nat) {
    && (q in s.passes ==> (s.mutex == Some(q) <==> s.passes[q].phase == Swapping)
                          && (s.passes[q].phase == Listed ==> s.passes[q].building == map[]))
    && (s.mutex.Some? ==> In(s, s.mutex.value, Swapping))
  }

  lemma MutexKept(s: State, e: Step, q: nat)
    requires Enabled(s, e) && MutexOk(s, q) && MutexOk(s, e.p)
    ensures MutexOk(Next(s, e), q)
  {
  }

  lemma StepKeepsInv(s: State, e: Step)
    requires Inv(s) && Enabled(s, e)
    ensures Inv(Next(s, e))
  {
    var s' := Next(s, e);
    SessionsKept(s, e);
    TasksKept(s, e);
    forall t | t in s'.table ensures EntryOk(s', t) {
      EntryKept(s, e, t);
    }
    forall q ensures MutexOk(s', q) {
      assert q in s.passes ==> PassOk(s, q);
      assert e.p in s.passes ==> PassOk(s, e.p);
      MutexKept(s, e, q);
    }
    forall q | q in s'.passes ensures PassOk(s', q) {
      assert MutexOk(s', q);
    }
  }

  lemma StepKeepsSolo(s: State, e: Step)
    requires Inv(s) && SoloInv(s) && Enabled(s, e)
    ensures SoloInv(Next(s, e))
  {
    var s' := Next(s, e);
    OnlyOwnPass(s, e);
    if e.Begin? {
      assert forall q :: Active(s', q) ==> q == e.p;
    } else if e.Snapshot? {
      SnapshotAlone(s, e.p);
    } else {
      assert Active(s, e.p);
      if e.Diff? {
        DiffAlone(s, e.p);
      } else if !e.Release? && !e.Quit? {
        StepKeepsAlone(s, e);
      }
      SoloStep(s, s', e.p);
    }
  }

  // ---------------------------------------------------------------- runs

  ghost predicate Init(s: State) {
    s.sessions == map[] && s.table == map[] && s.passes == map[] && s.mutex == None
  }

  ghost predicate Follows(s: State, t: State) {
    exists e :: Enabled(s, e) && t == Next(s, e)
  }

  ghost predicate IsRun(run: seq<State>) {
    |run| > 0 && Init(run[0]) && forall i :: 0 < i < |run| ==> Follows(run[i - 1], run[i])
  }

  lemma {:induction false} ReachableInv(run: seq<State>, n: nat)
    requires IsRun(run) && n < |run|
    ensures Inv(run[n]) && run[n].solo == run[0].solo
    ensures run[0].solo ==> SoloInv(run[n])
  {
    if n > 0 {
      ReachableInv(run, n - 1);
      assert Follows(run[n - 1], run[n]);
      var e :| Enabled(run[n - 1], e) && run[n] == Next(run[n - 1], e);
      StepKeepsInv(run[n - 1], e);
      OnlyOwnPass(run[n - 1], e);
      if run[0].solo {
        StepKeepsSolo(run[n - 1], e);
      }
    }
  }

  /** Some goroutine of the Session exists. */
  predicate Alive(s: State, id: nat, tenant: string) {
    id in s.sessions && s.sessions[id].tenant == tenant && s.sessions[id].stage != Stopped
  }

  lemma AliveKinds(s: State, id: nat, t: string)
    requires Inv(s) && SoloInv(s) && Alive(s, id, t)
    ensures var stage := s.sessions[id].stage;
            || (stage == Published && t in s.table && s.table[t] == id)
            || (stage.Leaving() && Stops(s, stage.p) && Alone(s, stage.p) && Leaving(s, id, t))
            || (stage.Built() && !Stops(s, stage.p) && Active(s, stage.p) && Alone(s, stage.p)
                && TaskIs(s, stage.p, t, Handed(id)))
  {
  }

  /** Passes one after another: at most one Session per tenant has goroutines. */
  lemma OneAlive(s: State, a: nat, b: nat, t: string)
    requires Inv(s) && SoloInv(s) && Alive(s, a, t) && Alive(s, b, t)
    ensures a == b
  {
    AliveKinds(s, a, t);
    AliveKinds(s, b, t);
    var x, y := s.sessions[a].stage, s.sessions[b].stage;
    if x != Published && y != Published {
      assert x.p == y.p by {
        assert Active(s, x.p) && Active(s, y.p);
      }
    }
    forall p | p in s.passes && Alone(s, p)
      ensures t in s.table ==> forall task :: TaskIs(s, p, t, task) ==> task == Settled
    {
      PublishedHasNoTask(s, p);
    }
  }

  /** When a Session starts, every earlier Session of its tenant has been fully stopped. */
  lemma PredecessorStopped(s: State, p: nat, t: string, id: nat, other: nat)
    requires Inv(s) && SoloInv(s) && Enabled(s, Launch(p, t, id))
    ensures !Alive(s, other, t)
  {
    assert Active(s, p) && Alone(s, p);
    PublishedHasNoTask(s, p);
    assert TaskIs(s, p, t, Waiting) && t !in s.table;
    if Alive(s, other, t) {
      InHandOf(s, p, other, t);
      AliveKinds(s, other, t);
    }
  }

  /** Whatever is alive and not published is in the hands of the one pass under way. */
  lemma InHandOf(s: State, p: nat, id: nat, t: string)
    requires Inv(s) && SoloInv(s) && Active(s, p) && Alive(s, id, t)
    ensures s.sessions[id].stage == Published || s.sessions[id].stage.p == p
  {
    AliveKinds(s, id, t);
    assert s.sessions[id].stage != Published ==> Active(s, s.sessions[id].stage.p);
  }

  /** The hash each published Session was built from. */
  function Hashes(s: State): map<string, string> {
    map t | t in s.table && s.table[t] in s.sessions :: s.sessions[s.table[t]].hash
  }

  function FailedIn(pass: Pass): set<string> {
    set t | t in pass.building && pass.building[t] == Failed
  }

  /** At the end of a pass run alone the table is what was wanted, less the failed builds. */
  lemma PassResult(s: State, p: nat)
    requires Inv(s) && SoloInv(s) && Enabled(s, Release(p))
    ensures Hashes(s) == s.passes[p].desired - FailedIn(s.passes[p])
    ensures FailedIn(s.passes[p]) <= s.passes[p].desired.Keys
  {
    var pass := s.passes[p];
    assert Active(s, p) && Alone(s, p) && PassOk(s, p);
    forall t | t in pass.building
      ensures t in pass.desired && (pass.building[t] == Failed || pass.building[t] == Settled)
    {
      assert TaskOk(s, p, t);
    }
    forall t | t in s.table
      ensures t in Hashes(s) && t in pass.desired && t !in FailedIn(pass) && Hashes(s)[t] == pass.desired[t]
    {
      assert Wanted(s, p, t);
    }
  }

  /** Run alone, a pass never finds its tenant published by somebody else. */
  lemma NoDuplicateAlone(s: State, p: nat, id: nat)
    requires Inv(s) && SoloInv(s)
    ensures !Enabled(s, DropBegin(p, id))
  {
  }

  /** However passes overlap: once all have ended, every Session ever started is published or stopped. */
  lemma NothingStranded(s: State, id: nat)
    requires Inv(s) && id in s.sessions && Quiet(s)
    ensures var x := s.sessions[id];
            x.stage == Stopped || (x.stage == Published && x.tenant in s.table && s.table[x.tenant] == id)
  {
  }

  /** The three guarantees over whole runs. */
  lemma EveryRun(run: seq<State>, n: nat, a: nat, b: nat, t: string)
    requires IsRun(run) && n < |run|
    ensures run[0].solo && Alive(run[n], a, t) && Alive(run[n], b, t) ==> a == b
    ensures Quiet(run[n]) && Alive(run[n], a, t) ==> t in run[n].table && run[n].table[t] == a
  {
    ReachableInv(run, n);
    if run[0].solo && Alive(run[n], a, t) && Alive(run[n], b, t) {
      OneAlive(run[n], a, b, t);
    }
    if Quiet(run[n]) && Alive(run[n], a, t) {
      NothingStranded(run[n], a);
    }
  }

  /** One Session per tenant rests on passes not overlapping: two that do can run two at once. */
  lemma OverlapRunsTwo(t: string, h: string) returns (run: seq<State>)
    ensures IsRun(run) && !run[0].solo
    ensures Alive(run[|run| - 1], 0, t) && Alive(run[|run| - 1], 1, t)
  {
    run := OverlapDiffs(t, h);
    run := Extend(run, AllStopped(0));
    run := Extend(run, AllStopped(1));
    run := Extend(run, Launch(0, t, 0));
    run := Extend(run, Launch(1, t, 1));
  }

  lemma OverlapDiffs(t: string, h: string) returns (run: seq<State>)
    ensures IsRun(run) && !run[0].solo
    ensures var pass := Pass(map[t := h], Draining, map[t := Waiting]);
            run[|run| - 1] == State(map[], map[], map[0 := pass, 1 := pass], None, false)
  {
    var desired := map[t := h];
    run := [State(map[], map[], map[], None, false)];
    run := Extend(run, Begin(0, desired));
    run := Extend(run, Begin(1, desired));
    FirstDiff(run[|run| - 1], 0, t, h);
    run := Extend(run, Diff(0));
    FirstDiff(run[|run| - 1], 1, t, h);
    run := Extend(run, Diff(1));
  }

  lemma FirstDiff(s: State, p: nat, t: string, h: string)
    requires s.sessions == map[] && s.table == map[] && p in s.passes && s.passes[p].desired == map[t := h]
    ensures AfterDiff(s, p) == s.(passes := s.passes[p := Pass(map[t := h], Draining, map[t := Waiting])])
  {
    assert AfterDiff(s, p).passes[p].building == map[t := Waiting];
    assert AfterDiff(s, p).sessions == map[];
  }

  lemma Extend(run: seq<State>, e: Step) returns (longer: seq<State>)
    requires IsRun(run) && Enabled(run[|run| - 1], e)
    ensures IsRun(longer) && longer == run + [Next(run[|run| - 1], e)]
  {
    longer := run + [Next(run[|run| - 1], e)];
    assert Follows(run[|run| - 1], longer[|run|]);
  }

  // ---------------------------------------------------------------- passes end

  /** Steps of passes under way; the others start a new one. */
  predicate Goes(e: Step) {
    !e.Begin? && !e.Snapshot?
  }

  /** While a pass is under way some goroutine can move, whoever holds the lock. */
  lemma SomebodyMoves(s: State, p: nat) returns (e: Step)
    requires Inv(s) && Active(s, p)
    ensures Enabled(s, e) && Goes(e)
  {
    if s.mutex.Some? {
      e := SwapperMoves(s, s.mutex.value);
    } else {
      assert PassOk(s, p);
      e := PassMoves(s, p);
    }
  }

  lemma SwapperMoves(s: State, p: nat) returns (e: Step)
    requires Inv(s) && In(s, p, Swapping)
    ensures Enabled(s, e) && Goes(e)
  {
    if id :| id in s.sessions && s.sessions[id].stage == Started(p) {
      assert SessionOk(s, id);
      e := if s.sessions[id].tenant in s.table then DropBegin(p, id) else Publish(p, id);
    } else if id :| id in s.sessions && s.sessions[id].stage == Duplicate(p) {
      assert SessionOk(s, id);
      e := DropEnd(p, id);
    } else {
      e := Release(p);
    }
  }

  lemma StopperMoves(s: State, p: nat) returns (e: Step)
    requires Stops(s, p)
    ensures Enabled(s, e) && Goes(e)
  {
    if id :| At(s, id, ToStop(p)) {
      e := StopBegin(p, id);
    } else if id :| At(s, id, Stopping(p)) {
      e := StopEnd(p, id);
    } else {
      e := if In(s, p, Draining) then AllStopped(p) else Quit(p);
      assert forall id :: id in s.sessions ==> !At(s, id, ToStop(p)) && !At(s, id, Stopping(p));
    }
  }

  lemma PassMoves(s: State, p: nat) returns (e: Step)
    requires Inv(s) && Active(s, p) && s.mutex == None && s.passes[p].phase != Swapping
    ensures Enabled(s, e) && Goes(e)
  {
    match s.passes[p].phase {
      case Listed => e := Diff(p);
      case Draining => e := StopperMoves(s, p);
      case Emptying => e := StopperMoves(s, p);
      case Building =>
        if t :| TaskIs(s, p, t, Waiting) {
          e := BuildFail(p, t);
        } else if id :| At(s, id, Launching(p)) {
          assert SessionOk(s, id);
          e := StartOk(p, id);
        } else {
          e := Acquire(p);
          assert forall t :: t in s.passes[p].building ==> !TaskIs(s, p, t, Waiting);
          assert forall id :: id in s.sessions ==> !At(s, id, Launching(p));
        }
    }
  }

  // What is still ahead of the passes under way: each set is emptied into later ones.

  function InPhase(s: State, phase: Phase): set<nat> {
    set p | p in s.passes && s.passes[p].phase == phase
  }

  function Unbuilt(s: State): set<(nat, string)> {
    set p, t | p in s.passes && t in s.passes[p].building && s.passes[p].building[t] == Waiting :: (p, t)
  }

  datatype Work = ToStopFirst | ToDrain | ToStart | ToSwap | ToDrop

  /** Sessions with this kind of work to be done on them. */
  function Awaiting(s: State, work: Work): set<nat> {
    set id | id in s.sessions && Needs(s.sessions[id].stage, work)
  }

  predicate Needs(stage: Stage, work: Work) {
    match work
    case ToStopFirst => stage.ToStop?
    case ToDrain => stage.Stopping?
    case ToStart => stage.Launching?
    case ToSwap => stage.Started?
    case ToDrop => stage.Duplicate?
  }

  /** Less is ahead: the first of these that changed got smaller. */
  predicate LessAhead(b: State, a: State) {
    InPhase(b, Listed) < InPhase(a, Listed) ||
    (InPhase(b, Listed) == InPhase(a, Listed) && (Unbuilt(b) < Unbuilt(a) ||
    (Unbuilt(b) == Unbuilt(a) && (LessWork(b, a) || (SameWork(b, a) && LessPhases(b, a))))))
  }

  predicate LessWork(b: State, a: State) {
    Awaiting(b, ToStopFirst) < Awaiting(a, ToStopFirst) ||
    (Awaiting(b, ToStopFirst) == Awaiting(a, ToStopFirst) && (Awaiting(b, ToDrain) < Awaiting(a, ToDrain) ||
    (Awaiting(b, ToDrain) == Awaiting(a, ToDrain) && (Awaiting(b, ToStart) < Awaiting(a, ToStart) ||
    (Awaiting(b, ToStart) == Awaiting(a, ToStart) && (Awaiting(b, ToSwap) < Awaiting(a, ToSwap) ||
    (Awaiting(b, ToSwap) == Awaiting(a, ToSwap) && Awaiting(b, ToDrop) < Awaiting(a, ToDrop))))))))
  }

  predicate SameWork(b: State, a: State) {
    forall work :: Awaiting(b, work) == Awaiting(a, work)
  }

  predicate LessPhases(b: State, a: State) {
    InPhase(b, Emptying) < InPhase(a, Emptying) ||
    (InPhase(b, Emptying) == InPhase(a, Emptying) && (InPhase(b, Draining) < InPhase(a, Draining) ||
    (InPhase(b, Draining) == InPhase(a, Draining) && (InPhase(b, Building) < InPhase(a, Building) ||
    (InPhase(b, Building) == InPhase(a, Building) && InPhase(b, Swapping) < InPhase(a, Swapping))))))
  }

  predicate MovesSession(e: Step) {
    e.StopBegin? || e.StopEnd? || e.StartFail? || e.StartOk? || e.Publish? || e.DropBegin? || e.DropEnd?
  }

  /** Every step of a pass under way leaves less ahead. */
  lemma StepLowers(s: State, e: Step)
    requires Inv(s) && Enabled(s, e) && Goes(e)
    ensures LessAhead(Next(s, e), s)
  {
    var s' := Next(s, e);
    if e.Diff? {
      assert e.p in InPhase(s, Listed) && e.p !in InPhase(s', Listed);
    } else if e.BuildFail? || e.Launch? {
      TaskTaken(s, e);
    } else if MovesSession(e) {
      SessionMoves(s, e);
    } else {
      PhaseEnds(s, e);
    }
  }

  lemma TaskTaken(s: State, e: Step)
    requires Enabled(s, e) && (e.BuildFail? || e.Launch?)
    ensures InPhase(Next(s, e), Listed) == InPhase(s, Listed) && Unbuilt(Next(s, e)) < Unbuilt(s)
  {
    var s' := Next(s, e);
    assert (e.p, e.t) in Unbuilt(s) && (e.p, e.t) !in Unbuilt(s');
  }

  lemma SessionMoves(s: State, e: Step)
    requires Enabled(s, e) && MovesSession(e) && (e.Publish? || e.DropEnd? || e.StartFail? ==> Handing(s, e.p, e.id))
    ensures InPhase(Next(s, e), Listed) == InPhase(s, Listed) && Unbuilt(Next(s, e)) == Unbuilt(s)
    ensures LessWork(Next(s, e), s)
  {
    var s' := Next(s, e);
    var work := match s.sessions[e.id].stage
      case ToStop(_) => ToStopFirst
      case Stopping(_) => ToDrain
      case Launching(_) => ToStart
      case Started(_) => ToSwap
      case _ => ToDrop;
    WorkDone(s, e, work);
    forall w | w != work && !Needs(s'.sessions[e.id].stage, w) ensures Awaiting(s', w) == Awaiting(s, w) {
      OtherWork(s, e, w);
    }
    TasksStay(s, e);
    hide Awaiting, InPhase, Unbuilt;
  }

  lemma WorkDone(s: State, e: Step, work: Work)
    requires Enabled(s, e) && MovesSession(e)
    requires Needs(s.sessions[e.id].stage, work) && !Needs(Next(s, e).sessions[e.id].stage, work)
    ensures Awaiting(Next(s, e), work) < Awaiting(s, work)
  {
    assert e.id in Awaiting(s, work) && e.id !in Awaiting(Next(s, e), work);
  }

  lemma TasksStay(s: State, e: Step)
    requires Enabled(s, e) && MovesSession(e) && (e.Publish? || e.DropEnd? || e.StartFail? ==> Handing(s, e.p, e.id))
    ensures InPhase(Next(s, e), Listed) == InPhase(s, Listed) && Unbuilt(Next(s, e)) == Unbuilt(s)
  {
  }

  predicate Handing(s: State, p: nat, id: nat) {
    id in s.sessions && TaskIs(s, p, s.sessions[id].tenant, Handed(id))
  }

  lemma OtherWork(s: State, e: Step, w: Work)
    requires Enabled(s, e) && MovesSession(e)
    requires !Needs(s.sessions[e.id].stage, w) && !Needs(Next(s, e).sessions[e.id].stage, w)
    ensures Awaiting(Next(s, e), w) == Awaiting(s, w)
  {
  }

  lemma PhaseEnds(s: State, e: Step)
    requires Enabled(s, e) && (e.AllStopped? || e.Quit? || e.Acquire? || e.Release?)
    ensures InPhase(Next(s, e), Listed) == InPhase(s, Listed) && Unbuilt(Next(s, e)) == Unbuilt(s)
    ensures SameWork(Next(s, e), s) && LessPhases(Next(s, e), s)
  {
    var s', phase := Next(s, e), s.passes[e.p].phase;
    assert e.p in InPhase(s, phase) && e.p !in InPhase(s', phase);
    forall ph | ph != phase && ph != s'.passes[e.p].phase ensures InPhase(s', ph) == InPhase(s, ph) {
    }
  }

  /** A schedule that does not stop before all passes have ended. */
  ghost predicate KeepsGoing(run: nat -> State, i: nat) {
    !Quiet(run(i)) ==> exists e :: Enabled(run(i), e) && Goes(e) && run(i + 1) == Next(run(i), e)
  }

  /** No pass waits or runs for ever: whatever the order of the steps, the passes under way all end. */
  lemma PassesEnd(run: nat -> State) returns (n: nat)
    requires Inv(run(0)) && forall i :: KeepsGoing(run, i)
    ensures Quiet(run(n)) && Inv(run(n))
  {
    n := EndsFrom(run, 0);
  }

  lemma EndsFrom(run: nat -> State, i: nat) returns (n: nat)
    requires Inv(run(i)) && forall j :: KeepsGoing(run, j)
    ensures Quiet(run(n)) && Inv(run(n))
    decreases InPhase(run(i), Listed), Unbuilt(run(i)), Awaiting(run(i), ToStopFirst), Awaiting(run(i), ToDrain),
              Awaiting(run(i), ToStart), Awaiting(run(i), ToSwap), Awaiting(run(i), ToDrop), InPhase(run(i), Emptying),
              InPhase(run(i), Draining), InPhase(run(i), Building), InPhase(run(i), Swapping)
  {
    if Quiet(run(i)) {
      n := i;
    } else {
      assert KeepsGoing(run, i);
      var e :| Enabled(run(i), e) && Goes(e) && run(i + 1) == Next(run(i), e);
      StepKeepsInv(run(i), e);
      StepLowers(run(i), e);
      hide Inv, Enabled, Next, InPhase, Unbuilt, Awaiting;
      n := EndsFrom(run, i + 1);
    }
  }
}
