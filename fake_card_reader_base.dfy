/**
 * FakeCardReaderBase (include/readoutmodules/detail/FakeCardReaderBase.hxx):
 * the same emulator lifecycle as FakeCardReader, for a reader that supplies
 * its own `create_source_emulator` and creates an emulator for every
 * connection whatever its direction. Its command registrations are
 * commented out; the owning module forwards the commands.
 */
module FakeCardReaderBases {
  import opened Wrappers
  import opened Pipelines
  import opened Connections
  import opened Failures
  import opened SourceEmulators
  import opened EmulatorLinks

  /**
   * `init` acts on every connection: on success the map gains exactly their
   * names, each with an emulator initialised once and sent to its uid; a
   * failure is a ResourceQueueError naming one connection and carrying
   * FailedFakeCardInitialization or the issue raised for that connection.
   */
  lemma InitOutcome(links: Links, conns: seq<Connection>, moduleName: string,
                    create: Connection -> Option<Pipeline<SourceEmulator>>, outcome: Connection -> StepOutcome)
    ensures Creatable(Acted(conns, false), create, outcome)
    ensures var r := Bind(links, Acted(conns, false), moduleName, create, outcome);
      (r.1.None? ==> r.0.Keys == links.Keys + (set c | c in conns :: c.name) &&
                     forall c :: c in conns ==> outcome(c).Completes? && create(c).Some? && c.name in r.0 && r.0[c.name].Some? &&
                                                r.0[c.name].value.inits == create(c).value.inits + 1 &&
                                                r.0[c.name].value.impl.sender == Some(c.uid)) &&
      (r.1.Some? ==> exists c :: c in conns && Blames(r.1.value, c, moduleName, outcome))
  {
    var acted := Acted(conns, false);
    BindKeepsAndBlames(links, acted, moduleName, create, outcome);
    if Bind(links, acted, moduleName, create, outcome).1.None? {
      BindContents(links, acted, moduleName, create, outcome);
      assert (set c | c in acted :: c.name) == (set c | c in conns :: c.name);
    }
  }

  class FakeCardReaderBase {
    const name: string                                                    // m_name
    const createSourceEmulator: Connection -> Option<Pipeline<SourceEmulator>>  // the derived reader's factory
    var links: Links                // m_source_emus
    var configured: bool            // m_configured
    var runMarker: bool             // m_run_marker, shared with the emulators
    var linkConfs: seq<LinkConf>    // m_cfg.link_confs

    /** Unconfigured, with the run marker down and no emulator. */
    constructor (name: string, createSourceEmulator: Connection -> Option<Pipeline<SourceEmulator>>)
      ensures this.name == name && this.createSourceEmulator == createSourceEmulator
      ensures links == map[] && !configured && !runMarker && linkConfs == []
    {
      this.name := name;
      this.createSourceEmulator := createSourceEmulator;
      links := map[];
      configured := false;
      runMarker := false;
      linkConfs := [];
    }

    /**
     * `init`: one emulator per connection, of any direction; `outcome` says
     * which of the calls made for a connection raise an issue.
     */
    method Init(conns: seq<Connection>, outcome: Connection -> StepOutcome) returns (failure: Option<Failure>)
      modifies this`links
      ensures (links, failure) == Bind(old(links), Acted(conns, false), name, createSourceEmulator, outcome)
    {
      links, failure := BindLinks(links, conns, false, name, createSourceEmulator, outcome);
    }

    /**
     * `do_conf`: nothing happens once the module is configured; otherwise
     * the module is marked configured only when the listed emulators are
     * configured one by one and then every emulator reports configured.
     */
    method DoConf(confs: seq<LinkConf>) returns (failure: Option<Failure>)
      requires configured || AllPresent(links)
      modifies this`links, this`configured, this`linkConfs
      ensures old(configured) ==> failure.None? && unchanged(this)
      ensures !old(configured) ==> linkConfs == confs && (links, failure) == Conf(old(links), confs)
      ensures configured <==> old(configured) || failure.None?
      ensures !old(configured) && configured ==> AllPresent(links) && AllConfigured(links)
    {
      if configured {
        return None;
      }
      linkConfs := confs;
      links, failure := ConfigureLinks(links, confs);
      if failure.None? {
        configured := true;
      }
    }

    /** `do_scrap`: every emulator is scrapped and the module is unconfigured. */
    method DoScrap()
      requires AllPresent(links)
      modifies this`links, this`configured
      ensures links == ApplyAll(old(links), p => Scrapped(p)) && !configured
      ensures forall k :: k in links ==> !links[k].value.configured
    {
      links := ApplyToAll(links, p => Scrapped(p));
      configured := false;
    }

    /** `do_start`: the run marker is raised, then every emulator starts and sees it raised. */
    method DoStart()
      requires AllPresent(links)
      modifies this`links, this`runMarker
      ensures runMarker && links == ApplyAll(old(links), p => Started(p, true))
      ensures forall k :: k in links ==> links[k].value.running && links[k].value.markerSeen
    {
      runMarker := true;
      var marker := runMarker;
      links := ApplyToAll(links, p => Started(p, marker));
    }

    /** `do_stop`: the run marker is lowered, then every emulator stops and sees it lowered. */
    method DoStop()
      requires AllPresent(links)
      modifies this`links, this`runMarker
      ensures !runMarker && links == ApplyAll(old(links), p => Stopped(p, false))
      ensures forall k :: k in links ==> !links[k].value.running && !links[k].value.markerSeen
    {
      runMarker := false;
      var marker := runMarker;
      links := ApplyToAll(links, p => Stopped(p, marker));
    }
  }
}
