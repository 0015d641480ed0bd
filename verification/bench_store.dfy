/**
 * `enhanced_store_with_wait`: store once, then poll the storage backends'
 * pending put queues until one pass finds them all empty or time runs out.
 * The clock is not modelled: `passes` holds what each poll pass that starts
 * before the timeout observes, one entry per backend in dictionary order.
 */
module StoreWait {
  import opened Wrappers

  /** What probing one backend's `put_tasks` under its `put_lock` gives. */
  datatype Probe = Pending(count: nat) | ProbeRaised

  datatype Backend = Backend(hasPutTasks: bool, hasPutLock: bool, probe: Probe)

  /** `store`: the call (or reaching the backends) fails, or the poll passes that follow it. */
  datatype StoreEnv = StoreEnv(store: Outcome, passes: seq<seq<Backend>>)

  /** A backend holds up completion iff it has both attributes and a non-empty queue. */
  predicate Blocks(b: Backend) {
    b.hasPutTasks && b.hasPutLock && b.probe.Pending? && b.probe.count > 0
  }

  /** A pass is done iff no backend holds it up; backends that raise are ignored. */
  predicate PassDone(pass: seq<Backend>) {
    forall i :: 0 <= i < |pass| ==> !Blocks(pass[i])
  }

  predicate SomePassDone(passes: seq<seq<Backend>>) {
    exists i :: 0 <= i < |passes| && PassDone(passes[i])
  }

  /**
   * Returns the store's error when it raises; otherwise `Ok(true)` at the first
   * done pass (after `polled` passes) and `Ok(false)` once every pass has run.
   */
  method EnhancedStoreWithWait(env: StoreEnv) returns (r: Result<bool>, polled: nat)
    ensures env.store.Fail? ==> r == Err(env.store.error) && polled == 0
    ensures env.store.Pass? ==> r.Ok? && (r.value <==> SomePassDone(env.passes))
    ensures r == Ok(true) ==> 1 <= polled <= |env.passes| && PassDone(env.passes[polled - 1])
                              && forall i :: 0 <= i < polled - 1 ==> !PassDone(env.passes[i])
    ensures r == Ok(false) ==> polled == |env.passes|
  {
    if env.store.Fail? {
      return Err(env.store.error), 0;
    }
    polled := 0;
    while polled < |env.passes|
      invariant polled <= |env.passes|
      invariant forall i :: 0 <= i < polled ==> !PassDone(env.passes[i])
    {
      var pass := env.passes[polled];
      var allTasksDone := true;
      var b := 0;
      while b < |pass|
        invariant b <= |pass|
        invariant allTasksDone <==> forall k :: 0 <= k < b ==> !Blocks(pass[k])
      {
        var backend := pass[b];
        if backend.hasPutTasks && backend.hasPutLock {
          match backend.probe
          case ProbeRaised =>
          case Pending(count) =>
            if count > 0 {
              allTasksDone := false;
              break;
            }
        }
        b := b + 1;
      }
      polled := polled + 1;
      if allTasksDone {
        return Ok(true), polled;
      }
    }
    r := Ok(false);
  }
}
