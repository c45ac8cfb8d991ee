/**
 * DummyConsumer (plugins/DummyConsumer.cpp): a module that drains one input
 * queue on a worker thread and counts the elements it receives. It
 * registers only "start" and "stop_trigger_sources" (bound to `do_stop`).
 *
 * The worker thread is not modelled as a thread: what it sees while the run
 * marker is up is given as a sequence of receive outcomes, Some(element) for
 * a delivered element and None for a TimeoutExpired.
 */
module DummyConsumers {
  import opened Wrappers
  import opened Failures

  /** The elements a sequence of receive outcomes delivers, in order. */
  function Delivered<T>(outcomes: seq<Option<T>>): (r: seq<T>)
    ensures |r| <= |outcomes|
  {
    if outcomes == [] then []
    else (if outcomes[0].Some? then [outcomes[0].value] else []) + Delivered(outcomes[1..])
  }

  /** Receiving in two stretches delivers what each stretch delivers, in order. */
  lemma {:induction false} DeliveredAppend<T>(a: seq<Option<T>>, b: seq<Option<T>>)
    ensures Delivered(a + b) == Delivered(a) + Delivered(b)
    decreases |a|
  {
    if a == [] {
      assert a + b == b;
    } else {
      assert (a + b)[0] == a[0] && (a + b)[1..] == a[1..] + b;
      DeliveredAppend(a[1..], b);
    }
  }

  /** An element is delivered exactly when some receive returned it. */
  lemma {:induction false} DeliveredMembers<T>(outcomes: seq<Option<T>>)
    ensures forall x :: x in Delivered(outcomes) <==> Some(x) in outcomes
    decreases |outcomes|
  {
    if outcomes != [] {
      DeliveredMembers(outcomes[1..]);
      assert forall o :: o in outcomes <==> o == outcomes[0] || o in outcomes[1..];
    }
  }

  /** One delivered element per successful receive: the count is the number of Some outcomes. */
  lemma {:induction false} DeliveredCount<T>(outcomes: seq<Option<T>>)
    ensures |Delivered(outcomes)| == |outcomes| - Timeouts(outcomes)
    decreases |outcomes|
  {
    if outcomes != [] {
      DeliveredCount(outcomes[1..]);
    }
  }

  /** How many receives timed out. */
  function Timeouts<T>(outcomes: seq<Option<T>>): (n: nat)
    ensures n <= |outcomes|
  {
    if outcomes == [] then 0
    else (if outcomes[0].None? then 1 else 0) + Timeouts(outcomes[1..])
  }

  /**
   * How many polls `do_stop` makes before the worker reports ready, given
   * the successive answers of `get_readiness()`: the index of the first
   * true answer, or all of them if none is true.
   */
  function PollsUntilReady(readiness: seq<bool>): (n: nat)
    ensures n <= |readiness|
    ensures forall j :: 0 <= j < n ==> !readiness[j]
    ensures n < |readiness| ==> readiness[n]
  {
    if readiness == [] || readiness[0] then 0 else 1 + PollsUntilReady(readiness[1..])
  }

  class DummyConsumer<T> {
    const name: string
    var hasReceiver: bool     // m_data_receiver has been obtained
    var runMarker: bool       // m_run_marker; the constructor leaves it unset
    var processed: int        // m_packets_processed
    ghost var handled: seq<T> // the packets handed to packet_callback so far, in order

    /** The counter starts at zero; no receiver yet. */
    constructor (name: string)
      ensures this.name == name && processed == 0 && !hasReceiver && handled == []
    {
      this.name := name;
      hasReceiver := false;
      processed := 0;
      handled := [];
    }

    /**
     * `init`: `lookupFailure` is the issue the framework raises when the
     * "input_queue" receiver cannot be obtained; it is rethrown wrapped in
     * a GenericResourceQueueError.
     */
    method Init(lookupFailure: Option<Failure>) returns (failure: Option<Failure>)
      modifies this`hasReceiver
      ensures lookupFailure.Some? ==>
        failure == Some(GenericResourceQueueError("input_queue", name, lookupFailure.value)) && hasReceiver == old(hasReceiver)
      ensures lookupFailure.None? ==> failure.None? && hasReceiver
    {
      if lookupFailure.Some? {
        return Some(GenericResourceQueueError("input_queue", name, lookupFailure.value));
      }
      hasReceiver := true;
      failure := None;
    }

    /** `do_start`: the counter is reset and the marker raised before the work is handed to the thread. */
    method DoStart()
      modifies this`processed, this`runMarker
      ensures processed == 0 && runMarker
    {
      processed := 0;
      runMarker := true;
    }

    /**
     * `do_stop`: the marker is lowered, then the worker's readiness is
     * polled until it reports ready; returns the number of 100 ms sleeps.
     */
    method DoStop(readiness: seq<bool>) returns (sleeps: nat)
      modifies this`runMarker
      ensures !runMarker && sleeps == PollsUntilReady(readiness)
    {
      runMarker := false;
      sleeps := 0;
      while sleeps < |readiness| && !readiness[sleeps]
        invariant sleeps <= |readiness|
        invariant PollsUntilReady(readiness[sleeps..]) + sleeps == PollsUntilReady(readiness)
      {
        assert readiness[sleeps..][1..] == readiness[sleeps + 1..];
        sleeps := sleeps + 1;
      }
    }

    /**
     * `do_work`: while the marker is up, every delivered element is handed
     * to `packet_callback` and then counted; a timeout changes nothing. The
     * counter therefore grows by exactly the number of delivered elements.
     */
    method DoWork(outcomes: seq<Option<T>>)
      requires hasReceiver
      modifies this`processed, this`handled
      ensures runMarker ==> processed == old(processed) + |Delivered(outcomes)| && handled == old(handled) + Delivered(outcomes)
      ensures !runMarker ==> processed == old(processed) && handled == old(handled)
    {
      var i := 0;
      while runMarker && i < |outcomes|
        invariant 0 <= i <= |outcomes|
        invariant processed == old(processed) + |Delivered(outcomes[..i])|
        invariant handled == old(handled) + Delivered(outcomes[..i])
        invariant !runMarker ==> i == 0
        decreases |outcomes| - i
      {
        DeliveredAppend(outcomes[..i], [outcomes[i]]);
        assert outcomes[..i + 1] == outcomes[..i] + [outcomes[i]];
        if outcomes[i].Some? {
          handled := handled + [outcomes[i].value];
          processed := processed + 1;
        }
        // a None is a TimeoutExpired: the loop goes on
        i := i + 1;
      }
      if runMarker {
        assert outcomes[..i] == outcomes;
      } else {
        assert outcomes[..i] == [];
      }
    }

    /** `get_info`: reports the current count. */
    method GetInfo() returns (packetsProcessed: int)
      ensures packetsProcessed == processed
    {
      packetsProcessed := processed;
    }
  }
}
