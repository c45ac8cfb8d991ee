/**
 * The map of source emulators a fake card reader owns (`m_source_emus`) and
 * the loops its commands run over it. FakeCardReader and FakeCardReaderBase
 * run the same loops; the only difference is that FakeCardReader's `init`
 * skips connections that are not outputs.
 *
 * Each loop is a method proved equal to a recursive specification function,
 * and the properties the modules rely on are lemmas about those functions.
 */
module EmulatorLinks {
  import opened Wrappers
  import opened Pipelines
  import opened Connections
  import opened Failures
  import opened SourceEmulators

  /** Emulators by connection name; None is a nullptr left by a failed creation. */
  type Links = map<string, Option<Pipeline<SourceEmulator>>>

  /** One entry of the configuration's `link_confs`; only its queue name is read here. */
  datatype LinkConf = LinkConf(queueName: string)

  /** No entry is a nullptr. */
  predicate AllPresent(links: Links)
  {
    forall k :: k in links ==> links[k].Some?
  }

  /** Every emulator reports `is_configured()`. */
  predicate AllConfigured(links: Links)
    requires AllPresent(links)
  {
    forall k :: k in links ==> links[k].value.configured
  }

  /** The connections `init` acts on, in order: all of them, or only the outputs. */
  function Acted(conns: seq<Connection>, outputsOnly: bool): (r: seq<Connection>)
    ensures forall c :: c in r <==> c in conns && (!outputsOnly || c.dir == Output)
    ensures |r| <= |conns|
  {
    if conns == [] then []
    else if outputsOnly && conns[0].dir != Output then Acted(conns[1..], outputsOnly)
    else [conns[0]] + Acted(conns[1..], outputsOnly)
  }

  /** No two elements of `s` share a key. */
  predicate DistinctBy<T>(s: seq<T>, key: T -> string)
  {
    forall i, j :: 0 <= i < j < |s| ==> key(s[i]) != key(s[j])
  }

  /** Distinct keys, one element at a time: the head's key is not among the tail's and the tail is distinct. */
  lemma DistinctByCons<T>(s: seq<T>, key: T -> string)
    requires |s| >= 1
    ensures DistinctBy(s, key) <==>
      DistinctBy(s[1..], key) && forall x :: x in s[1..] ==> key(x) != key(s[0])
  {
    var rest := s[1..];
    if DistinctBy(s, key) {
      forall i, j | 0 <= i < j < |rest| ensures key(rest[i]) != key(rest[j]) {
        assert rest[i] == s[i + 1] && rest[j] == s[j + 1];
      }
      forall x | x in rest ensures key(x) != key(s[0]) {
        var j :| 0 <= j < |rest| && rest[j] == x;
        assert s[j + 1] == x;
      }
    }
    if DistinctBy(rest, key) && forall x :: x in rest ==> key(x) != key(s[0]) {
      forall i, j | 0 <= i < j < |s| ensures key(s[i]) != key(s[j]) {
        if i == 0 {
          assert s[j] in rest by { assert s[j] == rest[j - 1]; }
        } else {
          assert s[i] == rest[i - 1] && s[j] == rest[j - 1];
        }
      }
    }
  }

  function NameOf(c: Connection): string { c.name }

  function QueueOf(c: LinkConf): string { c.queueName }

  /**
   * What the calls `init` makes on the framework side do for one connection,
   * which the model cannot see: they all return, or `createSourceEmulator`,
   * the emulator's own `init(args)` or its `set_sender(uid)` raises an issue.
   */
  datatype StepOutcome =
    | Completes
    | CreateThrows(issue: Failure)
    | InitThrows(issue: Failure)
    | SenderThrows(issue: Failure)

  /** The local catch of `init`: any issue raised for connection `qi` is rethrown as a ResourceQueueError naming it. */
  function Rethrown(qi: Connection, moduleName: string, issue: Failure): Failure
  {
    ResourceQueueError(qi.name, moduleName, issue)
  }

  /** How `init` fails for a duplicate name or a nullptr: FailedFakeCardInitialization, rewrapped by the local catch. */
  function InitFailure(qi: Connection, moduleName: string): Failure
  {
    Rethrown(qi, moduleName, FailedFakeCardInitialization(moduleName))
  }

  /** The entry `init` keeps for `qi` once its emulator exists: `init(args)` called, sender set to `qi.uid`. */
  function Bound(e: Pipeline<SourceEmulator>, qi: Connection): Pipeline<SourceEmulator>
  {
    Initialized(e).(impl := e.impl.(sender := Some(qi.uid)))
  }

  /** The factory is only asked for connections whose creation does not raise. */
  ghost predicate Creatable(conns: seq<Connection>, create: Connection --> Option<Pipeline<SourceEmulator>>,
                      outcome: Connection -> StepOutcome)
  {
    forall c | c in conns :: !outcome(c).CreateThrows? ==> create.requires(c)
  }

  /**
   * The `init` loop over the connections it acts on. A name already in the
   * map fails; otherwise the emulator is created (an issue raised there
   * leaves no entry, as the right-hand side of the assignment is evaluated
   * first) and stored under the name before the null check, so a nullptr
   * stays in the map when that check fails. An issue raised by the
   * emulator's `init` leaves it stored uninitialised, one raised by
   * `set_sender` leaves it initialised without a sender. The first failure
   * ends the loop.
   */
  function Bind(links: Links, conns: seq<Connection>, moduleName: string,
                create: Connection --> Option<Pipeline<SourceEmulator>>,
                outcome: Connection -> StepOutcome): (r: (Links, Option<Failure>))
    requires Creatable(conns, create, outcome)
    decreases |conns|
  {
    if conns == [] then (links, None)
    else
      var qi := conns[0];
      if qi.name in links then (links, Some(InitFailure(qi, moduleName)))
      else if outcome(qi).CreateThrows? then (links, Some(Rethrown(qi, moduleName, outcome(qi).issue)))
      else
        match create(qi)
        case None => (links[qi.name := None], Some(InitFailure(qi, moduleName)))
        case Some(e) =>
          if outcome(qi).InitThrows? then (links[qi.name := Some(e)], Some(Rethrown(qi, moduleName, outcome(qi).issue)))
          else if outcome(qi).SenderThrows? then
            (links[qi.name := Some(Initialized(e))], Some(Rethrown(qi, moduleName, outcome(qi).issue)))
          else Bind(links[qi.name := Some(Bound(e, qi))], conns[1..], moduleName, create, outcome)
  }

  /**
   * The failures `init` can report for connection `c`: the rewrapped
   * FailedFakeCardInitialization, or the rewrapped issue one of its calls
   * raised for `c`.
   */
  predicate Blames(f: Failure, c: Connection, moduleName: string, outcome: Connection -> StepOutcome)
  {
    f == InitFailure(c, moduleName) || (!outcome(c).Completes? && f == Rethrown(c, moduleName, outcome(c).issue))
  }

  /**
   * `init` never changes an entry that was already in the map, and every
   * failure it reports is a ResourceQueueError naming one of the
   * connections, carrying either FailedFakeCardInitialization or the issue
   * raised for that connection.
   */
  lemma {:induction false} BindKeepsAndBlames(links: Links, conns: seq<Connection>, moduleName: string,
                                              create: Connection --> Option<Pipeline<SourceEmulator>>,
                                              outcome: Connection -> StepOutcome)
    requires Creatable(conns, create, outcome)
    ensures var r := Bind(links, conns, moduleName, create, outcome);
      links.Keys <= r.0.Keys && (forall k :: k in links ==> r.0[k] == links[k]) &&
      (r.1.Some? ==> exists c :: c in conns && Blames(r.1.value, c, moduleName, outcome))
    decreases |conns|
  {
    if conns != [] {
      var qi := conns[0];
      if qi.name !in links && outcome(qi).Completes? && create(qi).Some? {
        assert Creatable(conns[1..], create, outcome);
        BindKeepsAndBlames(links[qi.name := Some(Bound(create(qi).value, qi))], conns[1..], moduleName, create, outcome);
      } else {
        assert Blames(Bind(links, conns, moduleName, create, outcome).1.value, qi, moduleName, outcome);
      }
    }
  }

  /**
   * `init` succeeds exactly when the names are new to the map and pairwise
   * distinct, every emulator is created and none of the calls raises.
   */
  lemma {:induction false} BindSucceedsIff(links: Links, conns: seq<Connection>, moduleName: string,
                                            create: Connection --> Option<Pipeline<SourceEmulator>>,
                                            outcome: Connection -> StepOutcome)
    requires Creatable(conns, create, outcome)
    ensures Bind(links, conns, moduleName, create, outcome).1.None? <==>
      DistinctBy(conns, NameOf) &&
      forall c :: c in conns ==> c.name !in links && outcome(c).Completes? && create(c).Some?
    decreases |conns|
  {
    if conns != [] {
      var qi := conns[0];
      var rest := conns[1..];
      assert forall c :: c in conns <==> c == qi || c in rest;
      DistinctByCons(conns, NameOf);
      if qi.name !in links && outcome(qi).Completes? && create(qi).Some? {
        BindSucceedsIff(links[qi.name := Some(Bound(create(qi).value, qi))], rest, moduleName, create, outcome);
      }
    }
  }

  /**
   * A successful `init` adds one entry per connection, initialised once and
   * with the sender set to the connection's uid, and nothing else.
   */
  lemma {:induction false} BindContents(links: Links, conns: seq<Connection>, moduleName: string,
                                         create: Connection --> Option<Pipeline<SourceEmulator>>,
                                         outcome: Connection -> StepOutcome)
    requires Creatable(conns, create, outcome)
    requires Bind(links, conns, moduleName, create, outcome).1.None?
    ensures var r := Bind(links, conns, moduleName, create, outcome).0;
      r.Keys == links.Keys + (set c | c in conns :: c.name) &&
      forall c :: c in conns ==> outcome(c).Completes? && create(c).Some? && r[c.name] == Some(Bound(create(c).value, c))
    decreases |conns|
  {
    if conns != [] {
      var qi := conns[0];
      var rest := conns[1..];
      assert forall c :: c in conns <==> c == qi || c in rest;
      BindSucceedsIff(links, conns, moduleName, create, outcome);
      var next := links[qi.name := Some(Bound(create(qi).value, qi))];
      BindContents(next, rest, moduleName, create, outcome);
      BindKeepsAndBlames(next, rest, moduleName, create, outcome);
    }
  }

  /** A connection whose emulator cannot be created leaves a nullptr under its name, and `init` fails. */
  lemma NullEmulatorStays(links: Links, qi: Connection, moduleName: string,
                          create: Connection --> Option<Pipeline<SourceEmulator>>,
                          outcome: Connection -> StepOutcome)
    requires !outcome(qi).CreateThrows? && create.requires(qi) && create(qi).None? && qi.name !in links
    ensures Bind(links, [qi], moduleName, create, outcome) == (links[qi.name := None], Some(InitFailure(qi, moduleName)))
  {
  }

  /**
   * An issue raised by the steps after creation is rethrown with that issue
   * as its cause, and the emulator stays in the map: uninitialised when its
   * own `init` raised, initialised but without a sender when `set_sender` did.
   */
  lemma ThrowingEmulatorStays(links: Links, qi: Connection, moduleName: string,
                              create: Connection --> Option<Pipeline<SourceEmulator>>,
                              outcome: Connection -> StepOutcome)
    requires (outcome(qi).InitThrows? || outcome(qi).SenderThrows?) && create.requires(qi) && create(qi).Some?
    requires qi.name !in links
    ensures var r := Bind(links, [qi], moduleName, create, outcome);
      r.1 == Some(ResourceQueueError(qi.name, moduleName, outcome(qi).issue)) &&
      r.0.Keys == links.Keys + {qi.name} && r.0[qi.name].Some? &&
      r.0[qi.name].value.inits == create(qi).value.inits + (if outcome(qi).InitThrows? then 0 else 1) &&
      r.0[qi.name].value.impl.sender == create(qi).value.impl.sender
  {
  }

  /** An issue raised by `createSourceEmulator` itself leaves the map as it was. */
  lemma CreateThrowLeavesNoEntry(links: Links, qi: Connection, moduleName: string,
                                 create: Connection --> Option<Pipeline<SourceEmulator>>,
                                 outcome: Connection -> StepOutcome)
    requires outcome(qi).CreateThrows? && qi.name !in links
    ensures Bind(links, [qi], moduleName, create, outcome) ==
      (links, Some(ResourceQueueError(qi.name, moduleName, outcome(qi).issue)))
  {
  }

  /**
   * The `conf` loop over `link_confs`: an unknown queue name or an emulator
   * already configured fails; otherwise that emulator is configured. The
   * first failure ends the loop and the emulators configured before it stay
   * configured.
   */
  function ConfigureAll(links: Links, confs: seq<LinkConf>): (r: (Links, Option<Failure>))
    requires AllPresent(links)
    ensures AllPresent(r.0) && r.0.Keys == links.Keys
    decreases |confs|
  {
    if confs == [] then (links, None)
    else
      var q := confs[0].queueName;
      if q !in links then (links, Some(GenericConfigurationError("Cannot find queue: " + q)))
      else if links[q].value.configured then (links, Some(GenericConfigurationError("Emulator configured twice: " + q)))
      else ConfigureAll(links[q := Some(Configured(links[q].value))], confs[1..])
  }

  /** The queue names a configuration lists. */
  function Queues(confs: seq<LinkConf>): set<string>
  {
    set c | c in confs :: c.queueName
  }

  /**
   * The `conf` loop succeeds exactly when every queue name is in the map,
   * no name is listed twice and no listed emulator was already configured;
   * it then configures exactly the listed emulators.
   */
  lemma {:induction false} ConfigureAllSucceedsIff(links: Links, confs: seq<LinkConf>)
    requires AllPresent(links)
    ensures ConfigureAll(links, confs).1.None? <==>
      DistinctBy(confs, QueueOf) &&
      forall c :: c in confs ==> c.queueName in links && !links[c.queueName].value.configured
    decreases |confs|
  {
    if confs != [] {
      var q := confs[0].queueName;
      var rest := confs[1..];
      assert forall c :: c in confs <==> c == confs[0] || c in rest;
      DistinctByCons(confs, QueueOf);
      if q in links && !links[q].value.configured {
        ConfigureAllSucceedsIff(links[q := Some(Configured(links[q].value))], rest);
      }
    }
  }

  /** A successful `conf` loop configures exactly the listed emulators. */
  lemma {:induction false} ConfigureAllContents(links: Links, confs: seq<LinkConf>)
    requires AllPresent(links)
    requires ConfigureAll(links, confs).1.None?
    ensures forall k :: k in links ==>
      ConfigureAll(links, confs).0[k] == if k in Queues(confs) then Some(Configured(links[k].value)) else links[k]
    decreases |confs|
  {
    if confs != [] {
      var q := confs[0].queueName;
      var rest := confs[1..];
      assert forall c :: c in confs <==> c == confs[0] || c in rest;
      assert Queues(confs) == {q} + Queues(rest);
      var next := links[q := Some(Configured(links[q].value))];
      ConfigureAllContents(next, rest);
      ConfigureAllSucceedsIff(links, confs);
    }
  }

  /** Configuration is not atomic: an emulator configured by an earlier entry stays configured whatever follows. */
  lemma {:induction false} ConfigureAllKeepsEarlier(links: Links, confs: seq<LinkConf>, k: string)
    requires AllPresent(links)
    requires k in links && links[k].value.configured
    ensures ConfigureAll(links, confs).0[k].value.configured
    decreases |confs|
  {
    if confs != [] {
      var q := confs[0].queueName;
      if q in links && !links[q].value.configured {
        ConfigureAllKeepsEarlier(links[q := Some(Configured(links[q].value))], confs[1..], k);
      }
    }
  }

  /** A failing `conf` can leave emulators configured: here "a" is configured and then "b" is unknown. */
  lemma ConfigureAllNotAtomic(e: Pipeline<SourceEmulator>)
    requires !e.configured
    ensures ConfigureAll(map["a" := Some(e)], [LinkConf("a"), LinkConf("b")]) ==
      (map["a" := Some(Configured(e))], Some(GenericConfigurationError("Cannot find queue: b")))
  {
    var links := map["a" := Some(e)];
    var next := links["a" := Some(Configured(e))];
    assert next == map["a" := Some(Configured(e))];
    assert "b" !in next;
    assert [LinkConf("a"), LinkConf("b")][1..] == [LinkConf("b")];
    assert ConfigureAll(next, [LinkConf("b")]) == (next, Some(GenericConfigurationError("Cannot find queue: " + "b")));
    assert "Cannot find queue: " + "b" == "Cannot find queue: b";
  }

  /**
   * The whole unconfigured branch of `do_conf`: the `link_confs` loop, then
   * the check that every emulator in the map is configured.
   */
  function Conf(links: Links, confs: seq<LinkConf>): (r: (Links, Option<Failure>))
    requires AllPresent(links)
    ensures AllPresent(r.0) && r.0.Keys == links.Keys
    ensures r.1.None? ==> AllConfigured(r.0)
  {
    var step := ConfigureAll(links, confs);
    if step.1.Some? then step
    else if !AllConfigured(step.0) then (step.0, Some(GenericConfigurationError("Not all links were configured")))
    else (step.0, None)
  }

  /**
   * `do_conf` on an unconfigured module succeeds exactly when the listed
   * queues are known, distinct and not yet configured, and every emulator
   * that was not already configured is listed.
   */
  lemma ConfSucceedsIff(links: Links, confs: seq<LinkConf>)
    requires AllPresent(links)
    ensures Conf(links, confs).1.None? <==>
      DistinctBy(confs, QueueOf) &&
      (forall c :: c in confs ==> c.queueName in links && !links[c.queueName].value.configured) &&
      (forall k :: k in links ==> links[k].value.configured || k in Queues(confs))
  {
    ConfigureAllSucceedsIff(links, confs);
    var step := ConfigureAll(links, confs);
    if step.1.None? {
      ConfigureAllContents(links, confs);
      if AllConfigured(step.0) {
        forall k | k in links ensures links[k].value.configured || k in Queues(confs) {
          assert step.0[k].value.configured;
        }
      }
      if forall k :: k in links ==> links[k].value.configured || k in Queues(confs) {
        forall k | k in step.0 ensures step.0[k].value.configured {
          assert k in links;
        }
      }
    }
  }

  /** The same command applied to every emulator (`scrap`, `start`, `stop`). */
  function ApplyAll(links: Links, f: Pipeline<SourceEmulator> -> Pipeline<SourceEmulator>): (r: Links)
    requires AllPresent(links)
    ensures AllPresent(r) && r.Keys == links.Keys
    ensures forall k :: k in r ==> r[k].value == f(links[k].value)
  {
    map k | k in links :: Some(f(links[k].value))
  }

  /** `Acted` on a suffix, one connection at a time. */
  lemma ActedStep(conns: seq<Connection>, i: nat, outputsOnly: bool)
    requires i < |conns|
    ensures Acted(conns[i..], outputsOnly) ==
      if outputsOnly && conns[i].dir != Output then Acted(conns[i + 1..], outputsOnly)
      else [conns[i]] + Acted(conns[i + 1..], outputsOnly)
  {
    assert conns[i..][1..] == conns[i + 1..];
  }

  /** The `init` loop: FakeCardReader passes `outputsOnly`, FakeCardReaderBase does not. */
  method BindLinks(links0: Links, conns: seq<Connection>, outputsOnly: bool, moduleName: string,
                   create: Connection --> Option<Pipeline<SourceEmulator>>, outcome: Connection -> StepOutcome)
    returns (links: Links, failure: Option<Failure>)
    requires Creatable(Acted(conns, outputsOnly), create, outcome)
    ensures (links, failure) == Bind(links0, Acted(conns, outputsOnly), moduleName, create, outcome)
  {
    links := links0;
    var i := 0;
    ghost var todo := Acted(conns, outputsOnly);
    while i < |conns|
      invariant 0 <= i <= |conns|
      invariant todo == Acted(conns[i..], outputsOnly)
      invariant Creatable(todo, create, outcome)
      invariant Bind(links, todo, moduleName, create, outcome) == Bind(links0, Acted(conns, outputsOnly), moduleName, create, outcome)
    {
      var qi := conns[i];
      ActedStep(conns, i, outputsOnly);
      if outputsOnly && qi.dir != Output {
        i := i + 1;
        continue;
      }
      assert todo != [] && todo[0] == qi && todo[1..] == Acted(conns[i + 1..], outputsOnly);
      if qi.name in links {
        return links, Some(InitFailure(qi, moduleName));
      }
      var step := outcome(qi);
      if step.CreateThrows? {
        return links, Some(Rethrown(qi, moduleName, step.issue));
      }
      var e := create(qi);
      if e.None? {
        links := links[qi.name := None];
        return links, Some(InitFailure(qi, moduleName));
      }
      // the emulator is stored, then initialised, then given its sender
      if step.InitThrows? {
        links := links[qi.name := Some(e.value)];
        return links, Some(Rethrown(qi, moduleName, step.issue));
      }
      if step.SenderThrows? {
        links := links[qi.name := Some(Initialized(e.value))];
        return links, Some(Rethrown(qi, moduleName, step.issue));
      }
      links := links[qi.name := Some(Bound(e.value, qi))];
      todo := todo[1..];
      i := i + 1;
    }
    assert conns[i..] == [];
    failure := None;
  }

  /** The `link_confs` loop followed by the loop checking every emulator. */
  method ConfigureLinks(links0: Links, confs: seq<LinkConf>) returns (links: Links, failure: Option<Failure>)
    requires AllPresent(links0)
    ensures (links, failure) == Conf(links0, confs)
  {
    links := links0;
    var i := 0;
    while i < |confs|
      invariant 0 <= i <= |confs|
      invariant AllPresent(links) && links.Keys == links0.Keys
      invariant ConfigureAll(links, confs[i..]) == ConfigureAll(links0, confs)
    {
      var q := confs[i].queueName;
      assert confs[i..][1..] == confs[i + 1..];
      if q !in links {
        return links, Some(GenericConfigurationError("Cannot find queue: " + q));
      }
      if links[q].value.configured {
        return links, Some(GenericConfigurationError("Emulator configured twice: " + q));
      }
      links := links[q := Some(Configured(links[q].value))];
      i := i + 1;
    }
    assert confs[i..] == [];
    var unchecked := links.Keys;
    while unchecked != {}
      invariant unchecked <= links.Keys
      invariant forall k :: k in links && k !in unchecked ==> links[k].value.configured
      decreases |unchecked|
    {
      var k :| k in unchecked;
      if !links[k].value.configured {
        return links, Some(GenericConfigurationError("Not all links were configured"));
      }
      unchecked := unchecked - {k};
    }
    failure := None;
  }

  /** `for (auto& [name, emu] : m_source_emus) emu->cmd(args)`. */
  method ApplyToAll(links0: Links, f: Pipeline<SourceEmulator> -> Pipeline<SourceEmulator>) returns (links: Links)
    requires AllPresent(links0)
    ensures links == ApplyAll(links0, f)
  {
    links := links0;
    var pending := links0.Keys;
    while pending != {}
      invariant pending <= links0.Keys && links.Keys == links0.Keys
      invariant forall k :: k in links0 ==> links[k] == if k in pending then links0[k] else Some(f(links0[k].value))
      decreases |pending|
    {
      var k :| k in pending;
      links := links[k := Some(f(links0[k].value))];
      pending := pending - {k};
    }
  }
}
