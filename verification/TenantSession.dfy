/**
 One tenant's Session (loadbalancer-controller/internal/multicluster/session.go):
 when its goroutines exist and why waiting for them never hangs.
 */
module TenantSession {
  import opened Requests

  datatype Goroutine = Cache | Resync | Worker

  class Session {
    const reliable: bool
    var cancellable: bool
    var cancelled: bool
    var draining: bool
    var stopped: bool
    var goroutines: set<Goroutine>

    constructor (reliable: bool)
      ensures this.reliable == reliable && goroutines == {} && !stopped && !draining && Consistent()
    {
      this.reliable := reliable;
      cancellable, cancelled, draining, stopped, goroutines := false, false, false, false, {};
    }

    /** Goroutines exist only under a context that can be cancelled. */
    ghost predicate Consistent()
      reads this
    {
      goroutines != {} ==> cancellable
    }

    ghost predicate Running()
      reads this
    {
      goroutines == {Cache, Resync, Worker} && cancellable && !cancelled && !draining
    }

    /** The cache and the resync ticker end with the context, the worker with the queue. */
    predicate MayExit(g: Goroutine)
      reads this
    {
      match g
      case Cache => cancelled
      case Resync => cancelled
      case Worker => draining
    }

    /** Waits for every goroutine, and hangs exactly when one of them has no reason to end. */
    method Wait() returns (hangs: bool)
      modifies `goroutines
      ensures hangs <==> exists g :: g in old(goroutines) && !MayExit(g)
      ensures !hangs ==> goroutines == {}
    {
      while exists g :: g in goroutines && MayExit(g)
        invariant forall g :: g in old(goroutines) && !MayExit(g) ==> g in goroutines
        invariant goroutines <= old(goroutines)
        decreases goroutines
      {
        var g :| g in goroutines && MayExit(g);
        goroutines := goroutines - {g};
      }
      hangs := goroutines != {};
    }

    /** Runs all three goroutines, or leaves none behind; waiting for the cache never hangs. */
    method Start() returns (ok: bool, hangs: bool)
      requires goroutines == {} && !draining && !stopped
      modifies this
      ensures !hangs && (ok ==> Running() && goroutines == {Cache, Resync, Worker})
      ensures !ok ==> goroutines == {} && cancelled
      ensures draining == old(draining) && stopped == old(stopped) && Consistent() && (reliable ==> ok)
    {
      cancellable, cancelled, hangs := true, false, false;
      goroutines := goroutines + {Cache};
      var synced := Answered(reliable);
      var informed := Answered(reliable);
      var registered := Answered(reliable);
      if !synced || !informed || !registered {
        cancelled := true;
        hangs := Wait();
        return false, hangs;
      }
      goroutines := goroutines + {Resync, Worker};
      return true, false;
    }

    /**
     Ends every goroutine the first time and does nothing again; from any state a Session can be in
     it never hangs.
     */
    method Stop() returns (hangs: bool)
      requires Consistent()
      modifies this
      ensures !hangs && stopped && Consistent()
      ensures !old(stopped) ==> goroutines == {} && draining && (cancellable ==> cancelled)
      ensures old(stopped) ==> unchanged(this)
    {
      if stopped {
        return false;
      }
      if cancellable {
        cancelled := true;
      }
      draining := true;
      hangs := Wait();
      stopped := true;
    }

    /** A build goroutine: start, and stop again what did not come up. */
    method Build() returns (ok: bool, hangs: bool)
      requires goroutines == {} && !draining && !stopped
      modifies this
      ensures !hangs && (reliable ==> ok) && if ok then Running() && !stopped else goroutines == {} && stopped
    {
      ok, hangs := Start();
      if !ok {
        hangs := Stop();
      }
    }
  }
}
