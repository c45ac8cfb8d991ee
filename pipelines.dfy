/**
 * The pipelines a module owns (ReadoutModel, SourceEmulatorModel,
 * RecorderModel). Their internals are outside this model; only the flags the
 * modules drive and observe are kept. A module owns each of its pipelines
 * through a unique_ptr, so a pipeline is a value held by its module.
 *
 * The effect of each command on a pipeline is what the modules rely on:
 * `conf` leaves it configured, `scrap` unconfigured, and `start`/`stop`
 * observe the module's shared run marker.
 */
module Pipelines {

  datatype Pipeline<K> = Pipeline(
    impl: K,           // the specialisation chosen by a factory
    inits: nat,        // completed `init(args)` calls
    configured: bool,  // `is_configured()`
    running: bool,     // between `start` and `stop`
    markerSeen: bool,  // value of the shared run marker at the last start/stop
    recordings: nat)   // `record(args)` requests forwarded to it

  /** A model as `std::make_unique` leaves it. */
  function Created<K>(impl: K): Pipeline<K>
  {
    Pipeline(impl, 0, false, false, false, 0)
  }

  function Initialized<K>(p: Pipeline<K>): Pipeline<K>
  {
    p.(inits := p.inits + 1)
  }

  function Configured<K>(p: Pipeline<K>): Pipeline<K>
  {
    p.(configured := true)
  }

  function Scrapped<K>(p: Pipeline<K>): Pipeline<K>
  {
    p.(configured := false)
  }

  function Started<K>(p: Pipeline<K>, marker: bool): Pipeline<K>
  {
    p.(running := true, markerSeen := marker)
  }

  function Stopped<K>(p: Pipeline<K>, marker: bool): Pipeline<K>
  {
    p.(running := false, markerSeen := marker)
  }

  function Recorded<K>(p: Pipeline<K>): Pipeline<K>
  {
    p.(recordings := p.recordings + 1)
  }
}
