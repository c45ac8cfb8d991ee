/**
 * DataLinkHandlerBase (include/readoutmodules/detail/DataLinkHandlerBase.hxx):
 * the single-pipeline lifecycle behind the readout modules. The derived
 * module supplies `create_readout`; its command registrations are commented
 * out and the owning module forwards "conf", "scrap", "start",
 * "stop_trigger_sources" and "record".
 */
module DataLinkHandlers {
  import opened Wrappers
  import opened Pipelines
  import opened Failures
  import opened Readouts

  /** daqdataformats::run_number_t, a 32-bit unsigned integer. */
  newtype RunNumber = x: int | 0 <= x < 0x1_0000_0000

  class DataLinkHandlerBase {
    const name: string                      // m_name
    var configured: bool                    // m_configured
    var runNumber: Option<RunNumber>        // m_run_number; None while never assigned
    var impl: Option<Pipeline<Readout>>     // m_readout_impl; None is nullptr
    var runMarker: bool                     // m_run_marker, shared with the implementation

    /** Unconfigured, with no implementation and the run marker down. */
    constructor (name: string)
      ensures this.name == name && !configured && impl == None && !runMarker && runNumber == None
    {
      this.name := name;
      configured := false;
      impl := None;
      runMarker := false;
      runNumber := None;
    }

    /**
     * `init`. `isReadoutModule` says whether the module configuration is an
     * appdal::ReadoutModule; `created` is what the derived module's
     * `create_readout` returns for it (for instance
     * `ReadoutFactory.CreateReadout(datatypes).model`), and `raised` the
     * issue it raises instead, if any (a readout model's own `init`
     * throwing), which leaves this module unchanged and is not caught here.
     * A returned result is stored before the null check, so a nullptr stays
     * stored when `init` fails.
     */
    method Init(isReadoutModule: bool, created: Option<Pipeline<Readout>>, raised: Option<Failure>)
      returns (failure: Option<Failure>)
      modifies this`impl
      ensures !isReadoutModule ==>
        failure == Some(FailedReadoutInitialization(name, "not a ReadoutModule")) && impl == old(impl)
      ensures isReadoutModule && raised.Some? ==> failure == raised && impl == old(impl)
      ensures isReadoutModule && raised.None? ==> impl == created
      ensures isReadoutModule && raised.None? && created.None? ==> failure == Some(FailedReadoutInitialization(name, ""))
      ensures isReadoutModule && raised.None? && created.Some? ==> failure.None?
    {
      if !isReadoutModule {
        return Some(FailedReadoutInitialization(name, "not a ReadoutModule"));
      }
      if raised.Some? {
        return raised;
      }
      impl := created;
      if impl.None? {
        return Some(FailedReadoutInitialization(name, ""));
      }
      failure := None;
    }

    /** `do_conf`: forwarded, then the module is marked configured, whatever it was before. */
    method DoConf()
      requires impl.Some?
      modifies this`impl, this`configured
      ensures impl == Some(Configured(old(impl).value)) && configured
    {
      impl := Some(Configured(impl.value));
      configured := true;
    }

    /** `do_scrap`: forwarded, then the module is unconfigured. */
    method DoScrap()
      requires impl.Some?
      modifies this`impl, this`configured
      ensures impl == Some(Scrapped(old(impl).value)) && !configured
    {
      impl := Some(Scrapped(impl.value));
      configured := false;
    }

    /**
     * `do_start`: the run marker is raised, the implementation starts and
     * sees it raised, then the run number of the start parameters is kept.
     */
    method DoStart(run: RunNumber)
      requires impl.Some?
      modifies this`impl, this`runMarker, this`runNumber
      ensures runMarker && impl == Some(Started(old(impl).value, true)) && impl.value.markerSeen
      ensures runNumber == Some(run)
    {
      runMarker := true;
      impl := Some(Started(impl.value, runMarker));
      runNumber := Some(run);
    }

    /**
     * `do_stop`: the run marker is lowered, then the implementation stops
     * and sees it lowered; the run number stays that of the last start.
     */
    method DoStop()
      requires impl.Some?
      modifies this`impl, this`runMarker
      ensures !runMarker && impl == Some(Stopped(old(impl).value, false)) && !impl.value.markerSeen
      ensures runNumber == old(runNumber)
    {
      runMarker := false;
      impl := Some(Stopped(impl.value, runMarker));
    }

    /** `do_record`: forwarded in any state, running or not. */
    method DoRecord()
      requires impl.Some?
      modifies this`impl
      ensures impl == Some(Recorded(old(impl).value))
      ensures impl.value.recordings == old(impl).value.recordings + 1
    {
      impl := Some(Recorded(impl.value));
    }
  }
}
