/**
 The debounced node-address syncer (talos-edge-router/internal/sniproxy/ipsync.go):
 the event loop as a transition system interleaved with node events, and one
 sync pass over the node list.
 */
module SyncLoop {
  const INTERVAL := 30

  /** Where the loop goroutine stands. */
  datatype Pc =
    | Starting                    // before the first sync reads the nodes
    | Idle                        // blocked on the trigger
    | Received                    // took the trigger
    | Measured(elapsed: int)      // knows how long ago the last sync ended
    | Sleeping(wakeAt: int)       // timer running
    | Draining                    // timer fired, piled-up trigger not yet dropped
    | BeforeRead                  // sync started, nodes not yet listed
    | AfterRead                   // nodes listed, Service being patched
    | Finished                    // sync returned, its end not yet noted
    | Stopped

  /**
   `version` counts node changes, `seen` is the version the last sync listed,
   `pending` handler calls are still owed, `slot` is the one-slot trigger.
   `started`/`ended` are the true start and end of the syncs, `ended` of the previous one.
   */
  datatype State = State(version: nat, seen: nat, pending: nat, slot: bool, pc: Pc, now: int, lastSync: int,
                         started: int, ended: int, synced: bool)

  ghost predicate Init(s: State) {
    s.pc == Starting && !s.synced
  }

  datatype Step =
    | NodeChange | Handler | Tick(to: int)
    | FirstRead | Receive | Measure | StartTimer | SkipTimer | Fire | Drain | List | Patch | Note | Cancel

  predicate Enabled(s: State, e: Step) {
    match e
    case NodeChange => true
    case Handler => s.pending > 0
    case Tick(to) => s.now <= to
    case FirstRead => s.pc == Starting
    case Receive => s.pc == Idle && s.slot
    case Measure => s.pc == Received
    case StartTimer => s.pc.Measured? && s.pc.elapsed < INTERVAL
    case SkipTimer => s.pc.Measured? && s.pc.elapsed >= INTERVAL
    case Fire => s.pc.Sleeping? && s.pc.wakeAt <= s.now
    case Drain => s.pc == Draining
    case List => s.pc == BeforeRead
    case Patch => s.pc == AfterRead
    case Note => s.pc == Finished
    case Cancel => s.pc == Idle || s.pc.Sleeping?
  }

  function Next(s: State, e: Step): State
    requires Enabled(s, e)
  {
    match e
    case NodeChange => s.(version := s.version + 1, pending := s.pending + 1)
    case Handler => s.(pending := s.pending - 1, slot := true)
    case Tick(to) => s.(now := to)
    case FirstRead => s.(pc := BeforeRead, started := s.now)
    case Receive => s.(pc := Received, slot := false)
    case Measure => s.(pc := Measured(s.now - s.lastSync))
    case StartTimer => s.(pc := Sleeping(s.now + (INTERVAL - s.pc.elapsed)))
    case SkipTimer => s.(pc := BeforeRead, started := s.now)
    case Fire => s.(pc := Draining)
    case Drain => s.(pc := BeforeRead, slot := false, started := s.now)
    case List => s.(pc := AfterRead, seen := s.version)
    case Patch => s.(pc := Finished, ended := s.now, synced := true)
    case Note => s.(pc := Idle, lastSync := s.now)
    case Cancel => s.(pc := Stopped)
  }

  /** A node change no sync has listed yet is on its way to one. */
  ghost predicate NothingLost(s: State) {
    s.version != s.seen && s.pc != Stopped ==>
      || s.pending > 0 || s.slot
      || s.pc in {Starting, Received, Draining, BeforeRead} || s.pc.Measured? || s.pc.Sleeping?
  }

  /** A sync after the first started at least the interval after the previous one ended. */
  ghost predicate Spaced(s: State) {
    s.pc in {BeforeRead, AfterRead} && s.synced ==> s.started - s.ended >= INTERVAL
  }

  ghost predicate Inv(s: State) {
    && NothingLost(s) && Spaced(s)
    && (s.pc == Starting ==> !s.synced)
    && (s.synced ==> s.ended <= s.now)
    && (s.synced && s.pc !in {Finished, Stopped} ==> s.ended <= s.lastSync <= s.now)
    && (s.pc.Measured? || s.pc.Sleeping? || s.pc in {Idle, Received, Draining, Finished} ==> s.synced)
    && (s.pc.Measured? ==> s.pc.elapsed <= s.now - s.lastSync)
    && (s.pc.Sleeping? ==> s.pc.wakeAt >= s.lastSync + INTERVAL)
    && (s.pc == Draining ==> s.now >= s.lastSync + INTERVAL)
  }

  lemma StepKeepsInv(s: State, e: Step)
    requires Inv(s) && Enabled(s, e)
    ensures Inv(Next(s, e))
  {
  }

  ghost predicate IsRun(run: seq<State>) {
    && |run| > 0 && Init(run[0])
    && forall i :: 0 < i < |run| ==> Follows(run[i - 1], run[i])
  }

  ghost predicate Follows(s: State, t: State) {
    exists e :: Enabled(s, e) && t == Next(s, e)
  }

  lemma {:induction false} ReachableInv(run: seq<State>, n: nat)
    requires IsRun(run) && n < |run|
    ensures Inv(run[n])
  {
    if n > 0 {
      ReachableInv(run, n - 1);
      assert Follows(run[n - 1], run[n]);
      var e :| Enabled(run[n - 1], e) && run[n] == Next(run[n - 1], e);
      StepKeepsInv(run[n - 1], e);
    }
  }

  /** In every interleaving of node events with the loop no change is lost and syncs keep their distance. */
  lemma EveryRunIsSafe(run: seq<State>)
    requires IsRun(run)
    ensures forall i :: 0 <= i < |run| ==> NothingLost(run[i]) && Spaced(run[i])
  {
    forall i: nat | i < |run| ensures NothingLost(run[i]) && Spaced(run[i]) {
      ReachableInv(run, i);
    }
  }

  class Syncer {
    // no node events, and nobody stops the program
    const quiet: bool
    var st: State
    // every state so far
    ghost var run: seq<State>

    /** What happened so far was a run of the loop's own steps among those of others. */
    ghost predicate Valid()
      reads this
    {
      IsRun(run) && st == run[|run| - 1] && Inv(st)
    }

    constructor (quiet: bool, now: int, version: nat, pending: nat, slot: bool)
      ensures Valid() && Init(st) && run == [st] && this.quiet == quiet
      ensures st.version == version && st.pending == pending && st.slot == slot
    {
      this.quiet := quiet;
      st := State(version, 0, pending, slot, Starting, now, now, now, now, false);
      run := [State(version, 0, pending, slot, Starting, now, now, now, now, false)];
    }

    /** Node events, their handlers and the clock, any number of them. */
    method Others()
      requires Valid()
      modifies this
      ensures Valid() && old(run) <= run
      ensures st.pc == old(st.pc) && st.seen == old(st.seen) && st.now >= old(st.now)
      ensures st.lastSync == old(st.lastSync) && st.started == old(st.started) && st.ended == old(st.ended)
      ensures st.synced == old(st.synced) && (old(st.slot) ==> st.slot)
      ensures quiet ==> st == old(st).(now := st.now)
    {
      hide Inv, IsRun;
      var n: nat :| true;
      for i := 0 to n
        invariant Valid() && old(run) <= run
        invariant st.pc == old(st.pc) && st.seen == old(st.seen) && st.now >= old(st.now)
        invariant st.lastSync == old(st.lastSync) && st.started == old(st.started) && st.ended == old(st.ended)
        invariant st.synced == old(st.synced) && (old(st.slot) ==> st.slot)
        invariant quiet ==> st == old(st).(now := st.now)
      {
        assert Enabled(st, Tick(st.now));
        var e: Step :| Enabled(st, e) && ((!quiet && (e.NodeChange? || e.Handler?)) || e.Tick?);
        Do(e);
      }
    }

    method Do(e: Step)
      requires Valid() && Enabled(st, e)
      modifies this
      ensures Valid() && st == Next(old(st), e) && run == old(run) + [st]
    {
      hide Inv, Next, Enabled;
      StepKeepsInv(st, e);
      assert Follows(st, Next(st, e));
      st := Next(st, e);
      run := run + [st];
    }

    /** All changes are listed; the trigger and the handlers are as they were. */
    predicate Settles(a: State, b: State) {
      b.version == a.version && b.pending == a.pending && b.slot == a.slot && b.seen == b.version
    }

    method Sync()
      requires Valid() && st.pc == BeforeRead
      modifies this
      ensures Valid() && old(run) <= run && st.pc == Idle && st.seen >= old(st.version)
      ensures quiet ==> Settles(old(st), st)
    {
      hide Inv, IsRun;
      Do(List);
      Others();
      Do(Patch);
      Others();
      Do(Note);
    }

    /**
     The loop of `RunIPSyncer`, cut off after some rounds; others run between any two steps. When all
     is quiet, one round after the first sync serves the trigger, and every change has been listed.
     */
    method Run(rounds: nat)
      requires Valid() && st.pc == Starting
      modifies this
      ensures Valid() && old(run) <= run && (st.pc == Idle || st.pc == Stopped)
      ensures quiet ==> st.pc == Idle && st.version == old(st.version) && st.seen == st.version
      ensures quiet && rounds > 0 ==> !st.slot
    {
      hide IsRun, NothingLost, Spaced;
      Do(FirstRead);
      Sync();
      for i := 0 to rounds
        invariant Valid() && old(run) <= run && st.pc == Idle
        invariant quiet ==> st.version == old(st.version) && st.seen == st.version && (i > 0 ==> !st.slot)
      {
        Others();
        var cancelled: bool := *;
        if cancelled && !quiet {
          Do(Cancel);
          return;
        }
        if st.slot {
          var stopped := Debounce();
          if stopped {
            return;
          }
          Sync();
        }
      }
    }

    /** From the trigger to the start of the next sync, or to the end of the program. */
    method Debounce() returns (stopped: bool)
      requires Valid() && st.pc == Idle && st.slot
      modifies this
      ensures Valid() && old(run) <= run && st.pc == if stopped then Stopped else BeforeRead
      ensures quiet ==> !stopped && !st.slot && st.version == old(st.version) && st.seen == old(st.seen)
      ensures !stopped ==> st.started == st.now && st.started - st.ended >= INTERVAL
    {
      hide IsRun, Inv;
      SyncedWhenIdle(st);
      stopped := false;
      Do(Receive);
      Others();
      Do(Measure);
      Others();
      if st.pc.elapsed >= INTERVAL {
        Do(SkipTimer);
      } else {
        stopped := AwaitTimer();
      }
      SpacedNow(st);
    }

    method AwaitTimer() returns (stopped: bool)
      requires Valid() && st.pc.Measured? && st.pc.elapsed < INTERVAL
      modifies this
      ensures Valid() && old(run) <= run && st.synced == old(st.synced)
                && st.pc == if stopped then Stopped else BeforeRead
      ensures quiet ==> !stopped && !st.slot && st.version == old(st.version) && st.seen == old(st.seen)
      ensures !stopped ==> st.started == st.now
    {
      hide IsRun, Inv;
      Do(StartTimer);
      Others();
      stopped := *;
      stopped := stopped && !quiet;
      if stopped {
        Do(Cancel);
        return;
      }
      if st.now < st.pc.wakeAt {
        Do(Tick(st.pc.wakeAt));
      }
      Do(Fire);
      Others();
      Do(Drain);
    }

    lemma SyncedWhenIdle(s: State)
      requires Inv(s) && s.pc == Idle
      ensures s.synced
    {
    }

    lemma SpacedNow(s: State)
      requires Inv(s)
      ensures s.pc == BeforeRead && s.synced ==> s.started - s.ended >= INTERVAL
    {
    }
  }
}
