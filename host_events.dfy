/**
 * What a host does to its module and window, recorded in order: calls into
 * a module's entry points, binding and unbinding the window's input
 * callbacks, unloading, reading an empty result, and terminating the
 * window and renderer.
 */
module HostEvents {
  import opened ModuleLoader

  datatype Event =
    | Called(owner: Handle, entry: string, live: bool)
    | Bound(owner: Handle)
    | Unbound
    | Unloaded(owner: Handle)
    | EmptyRead(what: string)
    | WindowTerminated
    | RendererTerminated

  /** A call into `entry` of `h`, `live` when `h` is open and exports it;
      a call that is not live jumps into a closed library or through a
      null symbol. */
  function Call(s: Loader, h: Handle, entry: string): (e: Event)
    ensures e.Called? && e.owner == h && e.entry == entry
    ensures e.live <==> h in s.loaded && entry in s.loaded[h].exports
  {
    Called(h, entry, entry in Exports(s, h))
  }

  /** An event that is neither a call into a closed library nor a read of
      an empty result. */
  predicate Safe(e: Event)
  {
    match e
    case Called(_, _, live) => live
    case EmptyRead(_) => false
    case _ => true
  }

  predicate AllSafe(log: seq<Event>)
  {
    forall k :: 0 <= k < |log| ==> Safe(log[k])
  }

  /** Safety of a log is safety of its parts. */
  lemma AllSafeAppend(a: seq<Event>, b: seq<Event>)
    ensures AllSafe(a + b) <==> AllSafe(a) && AllSafe(b)
  {
    if AllSafe(a) && AllSafe(b) {
      forall k | 0 <= k < |a + b|
        ensures Safe((a + b)[k])
      {
        if k >= |a| {
          assert (a + b)[k] == b[k - |a|];
        }
      }
    }
    if AllSafe(a + b) {
      forall k | 0 <= k < |a|
        ensures Safe(a[k])
      {
        assert (a + b)[k] == a[k];
      }
      forall k | 0 <= k < |b|
        ensures Safe(b[k])
      {
        assert (a + b)[|a| + k] == b[k];
      }
    }
  }
}
