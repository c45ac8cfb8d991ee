/**
 * FakeCardReader (plugins/FakeCardReader.cpp): a module that owns one source
 * emulator per output connection and drives them through the run-control
 * commands. It registers "conf", "scrap", "start" and "drain_dataflow"; the
 * last is bound to `do_stop`.
 */
module FakeCardReaders {
  import opened Wrappers
  import opened Pipelines
  import opened Connections
  import opened Failures
  import opened SourceEmulators
  import opened EmulatorLinks

  /**
   * The emulator factory `init` calls: createSourceEmulator over the data
   * types registered for each connection uid, keeping only the model.
   */
  function EmulatorMaker(registry: map<string, seq<string>>, fmt: TdeFormat): Connection --> Option<Pipeline<SourceEmulator>>
  {
    (qi: Connection) requires qi.uid in registry && |registry[qi.uid]| >= 1 => CreateSourceEmulator(qi, registry, fmt).model
  }

  /**
   * Every output connection whose creation does not raise has a registered,
   * non-empty data-type set.
   */
  predicate Registered(conns: seq<Connection>, registry: map<string, seq<string>>, outcome: Connection -> StepOutcome)
  {
    forall c | c in conns && c.dir == Output && !outcome(c).CreateThrows? :: c.uid in registry && |registry[c.uid]| >= 1
  }

  /**
   * `init` acts on the output connections only: on success the map gains
   * exactly their names, and a failure is a ResourceQueueError naming one
   * output connection and carrying FailedFakeCardInitialization or the issue
   * raised for that connection.
   */
  lemma InitOutcome(links: Links, conns: seq<Connection>, moduleName: string,
                    create: Connection --> Option<Pipeline<SourceEmulator>>, outcome: Connection -> StepOutcome)
    requires forall c | c in conns && c.dir == Output && !outcome(c).CreateThrows? :: create.requires(c)
    ensures Creatable(Acted(conns, true), create, outcome)
    ensures var r := Bind(links, Acted(conns, true), moduleName, create, outcome);
      (r.1.None? ==> r.0.Keys == links.Keys + (set c | c in conns && c.dir == Output :: c.name)) &&
      (r.1.Some? ==> exists c :: c in conns && c.dir == Output && Blames(r.1.value, c, moduleName, outcome))
  {
    var acted := Acted(conns, true);
    BindKeepsAndBlames(links, acted, moduleName, create, outcome);
    if Bind(links, acted, moduleName, create, outcome).1.None? {
      BindContents(links, acted, moduleName, create, outcome);
      assert (set c | c in acted :: c.name) == (set c | c in conns && c.dir == Output :: c.name);
    }
  }

  class FakeCardReader {
    const name: string
    var links: Links                // m_source_emus
    var configured: bool            // m_configured
    var runMarker: bool             // m_run_marker, shared with the emulators
    var linkConfs: seq<LinkConf>    // m_cfg.link_confs

    /** Unconfigured, with the run marker down and no emulator. */
    constructor (name: string)
      ensures this.name == name && links == map[] && !configured && !runMarker && linkConfs == []
    {
      this.name := name;
      links := map[];
      configured := false;
      runMarker := false;
      linkConfs := [];
    }

    /**
     * `init`: one emulator per output connection, created from the data
     * types registered for its uid, initialised and given the uid as sender;
     * `outcome` says which of those calls raise an issue.
     */
    method Init(conns: seq<Connection>, registry: map<string, seq<string>>, fmt: TdeFormat,
                outcome: Connection -> StepOutcome)
      returns (failure: Option<Failure>)
      requires Registered(conns, registry, outcome)
      modifies this`links
      ensures Creatable(Acted(conns, true), EmulatorMaker(registry, fmt), outcome)
      ensures (links, failure) == Bind(old(links), Acted(conns, true), name, EmulatorMaker(registry, fmt), outcome)
    {
      links, failure := BindLinks(links, conns, true, name, EmulatorMaker(registry, fmt), outcome);
    }

    /**
     * `do_conf`: nothing happens once the module is configured. Otherwise
     * the listed emulators are configured one by one, and the module is
     * marked configured only when that succeeds and every emulator reports
     * configured. A nullptr left by a failed `init` must not be reached.
     */
    method DoConf(confs: seq<LinkConf>) returns (failure: Option<Failure>)
      requires configured || AllPresent(links)
      modifies this`links, this`configured, this`linkConfs
      ensures old(configured) ==> failure.None? && unchanged(this)
      ensures !old(configured) ==> linkConfs == confs && (links, failure) == Conf(old(links), confs)
      ensures configured <==> old(configured) || failure.None?
      ensures !old(configured) && configured ==> AllPresent(links) && AllConfigured(links)
    {
      if configured {
        return None;
      }
      linkConfs := confs;
      links, failure := ConfigureLinks(links, confs);
      if failure.None? {
        configured := true;
      }
    }

    /** `do_scrap`: every emulator is scrapped and the module is unconfigured. */
    method DoScrap()
      requires AllPresent(links)
      modifies this`links, this`configured
      ensures links == ApplyAll(old(links), p => Scrapped(p)) && !configured
      ensures forall k :: k in links ==> !links[k].value.configured
    {
      links := ApplyToAll(links, p => Scrapped(p));
      configured := false;
    }

    /** `do_start`: the run marker is raised, then every emulator starts and sees it raised. */
    method DoStart()
      requires AllPresent(links)
      modifies this`links, this`runMarker
      ensures runMarker && links == ApplyAll(old(links), p => Started(p, true))
      ensures forall k :: k in links ==> links[k].value.running && links[k].value.markerSeen
    {
      runMarker := true;
      var marker := runMarker;
      links := ApplyToAll(links, p => Started(p, marker));
    }

    /** `do_stop` ("drain_dataflow"): the run marker is lowered, then every emulator stops and sees it lowered. */
    method DoStop()
      requires AllPresent(links)
      modifies this`links, this`runMarker
      ensures !runMarker && links == ApplyAll(old(links), p => Stopped(p, false))
      ensures forall k :: k in links ==> !links[k].value.running && !links[k].value.markerSeen
    {
      runMarker := false;
      var marker := runMarker;
      links := ApplyToAll(links, p => Stopped(p, marker));
    }
  }
}
