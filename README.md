# readoutmodules control core, modelled in Dafny

This project models the control layer of the DUNE DAQ `readoutmodules`
package. That layer is the set of DAQ modules that create, configure, start,
stop and scrap per-link pipelines. The pipelines are readout models, source
emulators and recorders, and the concrete type of each is chosen at run time
from the data-type string of its connection.

The model covers three things:

- **Payload-type dispatch.** `createReadout`, the far- and near-detector
  readout creators, `createSourceEmulator` and `DataRecorder::init` each walk
  an ordered list of patterns and take the first one that occurs anywhere in
  the tag, as `std::string::find` reports it. Each becomes a table of
  `(pattern, variant)` rows over a shared first-match function (`Dispatch`),
  on top of a model of `find` (`Substring`). Lemmas state which branch every
  registered type string selects. They also prove that the firmware
  trigger-primitive branch of `createReadout` can never be taken.
- **Module lifecycles.** These are `FakeCardReader`, `FakeCardReaderBase`,
  `DataLinkHandlerBase`, `DataRecorder`, `DummyConsumer`,
  `ErroredFrameConsumer` and `CPUPinner`.
  - Each is a class whose fields are the module's members.
  - The pipelines a module owns through `unique_ptr` are values
    (`Pipelines.Pipeline`). Each carries the flags the module drives:
    `inits`, `configured`, `running`, the run-marker value seen at the last
    start or stop, and `recordings`.
  - The loops over the emulator map are methods proved equal to recursive
    specification functions (`EmulatorLinks`). Lemmas state what those
    functions do: the success conditions, the contents of the map, and the
    non-atomic `do_conf`.
- **Small computations.**
  - The error-bit count of `ErroredFrameConsumer`.
  - The thread-pinning passes of `CPUPinner`, with the invariant that
    pinned plus remaining equals requested.
  - The issue taxonomy of `ReadoutModulesIssues.hpp`.

Framework lookups are inputs to the model:

- the data types `IOManager::get_datatypes` reports;
- the connection list of `ModInit`;
- whether `cfg->module<ReadoutModule>` found the module;
- what a receive returns;
- what `/proc/self/task` lists;
- which framework-side calls raise an issue. This covers the factory and
  the emulator's own `init` and `set_sender` in the fake card readers'
  `init`, `create_readout` in the link handler's `init`, and the
  recorder's `init` in `DataRecorder::init`.

An `ers::Issue` that is thrown is modelled as a returned
`Option<Failure>`. Whatever the module has already changed before the
throw stays changed.

Behaviours of the code that the model keeps as they are:

- Dispatch is by substring, first match wins. It is not by exact tag
  equality.
- A data-type set whose size is not one is only reported through
  `ers::error`, and its first element is used. It is not a fatal error.
- `do_conf` on a module that is already configured does nothing. It does
  not fail.
- `do_conf` is not atomic: emulators configured before a failing entry stay
  configured.
- `do_record` is forwarded in every state. Nothing rejects it outside a run.
- Failures are rewrapped rather than propagated unchanged:
  - FakeCardReader and FakeCardReaderBase produce `ResourceQueueError`;
  - DataRecorder produces `DataRecorderResourceQueueError`, whatever
    `ers::Issue` caused it;
  - DummyConsumer produces `GenericResourceQueueError`.
- A missing implementation makes the factories return null. It surfaces as
  `FailedReadoutInitialization` or `FailedFakeCardInitialization`, not as
  `NoImplementationAvailableError`.
- Among the modelled modules, only `DummyConsumer::do_stop` polls its
  worker's readiness. The `do_stop` of FakeCardReader, FakeCardReaderBase,
  DataLinkHandlerBase and DataRecorder returns once the pipelines are told
  to stop.
- `DataLinkHandlerBase::do_start` stores the run number after starting the
  implementation. The run marker is raised before.

## Model

| member | source | states |
|---|---|---|
| Substring.Find | src/CreateReadout.hpp:99 | `std::string::find`: -1 (npos) exactly when the pattern occurs nowhere, otherwise the first position where it occurs |
| Substring.FindFrom | src/CreateReadout.hpp:99 | a search from a position finds the first occurrence at or after it, or reports none |
| Substring.MatchesFromIsSlice | src/CreateReadout.hpp:99 | the character-by-character comparison agrees with slice equality |
| Substring.ContainsSelf | src/CreateReadout.hpp:99-109 | every tag contains itself, at position 0 |
| Substring.ContainsTransitive | src/CreateReadout.hpp:201-222 | a tag containing a string that contains a pattern contains the pattern |
| Substring.LongerNotContained | src/CreateReadout.hpp:99 | a pattern longer than the tag never occurs in it |
| Substring.MissingChar | src/CreateReadout.hpp:99 | a pattern with a character the tag lacks never occurs in it |
| Substring.NowhereInside | src/CreateReadout.hpp:99 | a pattern that fails at every alignment does not occur |
| Dispatch.FirstMatchFrom | src/CreateReadout.hpp:99-242 | the first row from a given index whose pattern occurs in the tag, with no earlier row matching; none exactly when no later row matches |
| Dispatch.FirstMatch | src/CreateReadout.hpp:99-242 | the winning row of an if-return chain, or none exactly when no pattern occurs in the tag |
| Dispatch.Select | src/CreateReadout.hpp:99-242 | the variant of the winning row; defined exactly when some pattern occurs |
| Dispatch.WinnerUnique | src/CreateReadout.hpp:99-242 | at most one row wins for a tag |
| Dispatch.FirstMatchIsWinner | src/CreateReadout.hpp:99-242 | a winning row is what the first-match search returns |
| Dispatch.SelectsRow | src/CreateReadout.hpp:99-242 | a winning row's variant is what the chain builds |
| Dispatch.SelectsNothing | src/CreateReadout.hpp:242 | a tag containing no pattern falls through to nullptr |
| Dispatch.Shadowed | src/CreateReadout.hpp:201-222 | a row whose pattern contains an earlier row's pattern can never win |
| Dispatch.OwnBranch | src/CreateReadout.hpp:64-73 | a pattern that contains no earlier pattern selects its own row |
| Dispatch.Create | src/CreateReadout.hpp:89-108 | size other than one only reported, first data type used, the winning row's model built and initialised once, nullptr when nothing matches |
| ReadoutFactory.CreateReadout | src/CreateReadout.hpp:85-243 | `createReadout`: first match over the ten patterns in source order, the model initialised once, nullptr on no match, size other than one only reported |
| ReadoutFactory.TriggerPrimitiveInsideFw | src/CreateReadout.hpp:201-213 | "FWTriggerPrimitive" contains "TriggerPrimitive" |
| ReadoutFactory.OnlyRow8BuildsFw | src/CreateReadout.hpp:213-222 | the firmware trigger-primitive model is built only by the row tested at line 213 |
| ReadoutFactory.FwTriggerPrimitiveUnreachable | src/CreateReadout.hpp:201-222 | no tag ever takes the FWTriggerPrimitive branch and no created readout is the firmware trigger-primitive model |
| ReadoutFactory.CreateReadoutIntended | src/CreateReadout.hpp:201-222 | the corrected chain, with FWTriggerPrimitive tested before TriggerPrimitive, keeping every other contract of CreateReadout |
| ReadoutFactory.IntendedAcceptsSameTags | src/CreateReadout.hpp:201-222 | the corrected chain accepts exactly the tags the original accepts |
| ReadoutFactory.IntendedFWTriggerPrimitiveSelectsFwTriggerPrimitive | src/CreateReadout.hpp:213-222 | in the corrected chain "FWTriggerPrimitive" builds the firmware trigger-primitive model |
| ReadoutFactory.IntendedTriggerPrimitiveSelectsSwTriggerPrimitive | src/CreateReadout.hpp:201-210 | in the corrected chain "TriggerPrimitive" still builds the software model |
| ReadoutFactory.WIBFrameSelectsProtoWib | src/CreateReadout.hpp:99-109 | "WIBFrame" builds the ProtoWIB readout, initialised once |
| ReadoutFactory.WIB2FrameSelectsDuneWib | src/CreateReadout.hpp:112-122 | "WIB2Frame" is not caught by the earlier "WIBFrame" test and builds the DUNE-WIB readout |
| ReadoutFactory.WIBEthFrameSelectsDuneWibEth | src/CreateReadout.hpp:125-135 | "WIBEthFrame" builds the WIBEth readout |
| ReadoutFactory.PDSFrameSelectsDaphne | src/CreateReadout.hpp:151-160 | "PDSFrame" builds the DAPHNE readout |
| ReadoutFactory.PDSStreamFrameSelectsDaphneStream | src/CreateReadout.hpp:163-173 | "PDSStreamFrame" is not caught by "PDSFrame" and builds the DAPHNE stream readout |
| ReadoutFactory.SSPFrameSelectsSsp | src/CreateReadout.hpp:176-185 | "SSPFrame" builds the SSP readout |
| ReadoutFactory.TDEAMCFrameSelectsTdeAmc | src/CreateReadout.hpp:188-198 | "TDEAMCFrame" builds the TDE AMC readout |
| ReadoutFactory.TriggerPrimitiveSelectsSwTriggerPrimitive | src/CreateReadout.hpp:201-210 | "TriggerPrimitive" builds the software trigger-primitive readout |
| ReadoutFactory.FWTriggerPrimitiveSelectsSwTriggerPrimitive | src/CreateReadout.hpp:201-222 | "FWTriggerPrimitive", as written, builds the software trigger-primitive readout |
| ReadoutFactory.PACMANFrameSelectsPacmanMessage | src/CreateReadout.hpp:225-234 | "PACMANFrame" builds the PACMAN readout |
| ReadoutFactory.TDEFrameSelectsNothing | src/CreateReadout.hpp:242 | "TDEFrame" matches no pattern: nullptr |
| ReadoutFactory.MPDFrameSelectsNothing | src/CreateReadout.hpp:242 | "MPDFrame" matches no pattern: nullptr |
| FdReadoutFactory.FdCreateReadout | plugins/fdReadoutCreator.cpp:76-194 | `fdReadoutCreator::create_readout`: first match over the eight far-detector patterns, initialised once, nullptr otherwise, size only reported |
| FdReadoutFactory.WIBFrameSelectsProtoWib | plugins/fdReadoutCreator.cpp:93-103 | "WIBFrame" builds the ProtoWIB readout |
| FdReadoutFactory.WIB2FrameSelectsDuneWib | plugins/fdReadoutCreator.cpp:106-116 | "WIB2Frame" builds the DUNE-WIB readout |
| FdReadoutFactory.WIBEthFrameSelectsDuneWibEth | plugins/fdReadoutCreator.cpp:119-129 | "WIBEthFrame" builds the WIBEth readout |
| FdReadoutFactory.PDSFrameSelectsDaphne | plugins/fdReadoutCreator.cpp:132-141 | "PDSFrame" builds the DAPHNE readout |
| FdReadoutFactory.PDSStreamFrameSelectsDaphneStream | plugins/fdReadoutCreator.cpp:144-154 | "PDSStreamFrame" builds the DAPHNE stream readout |
| FdReadoutFactory.SSPFrameSelectsSsp | plugins/fdReadoutCreator.cpp:157-166 | "SSPFrame" builds the SSP readout |
| FdReadoutFactory.TDEFrameSelectsTde | plugins/fdReadoutCreator.cpp:169-178 | "TDEFrame" builds the TDE readout |
| FdReadoutFactory.TriggerPrimitiveSelectsSwTriggerPrimitive | plugins/fdReadoutCreator.cpp:181-190 | "TriggerPrimitive" builds the software trigger-primitive readout |
| FdReadoutFactory.FWTriggerPrimitiveSelectsSwTriggerPrimitive | plugins/fdReadoutCreator.cpp:181-190 | "FWTriggerPrimitive" takes the TriggerPrimitive branch |
| FdReadoutFactory.PACMANFrameSelectsNothing | plugins/fdReadoutCreator.cpp:193 | "PACMANFrame" yields nullptr |
| FdReadoutFactory.MPDFrameSelectsNothing | plugins/fdReadoutCreator.cpp:193 | "MPDFrame" yields nullptr |
| FdReadoutFactory.TDEAMCFrameSelectsNothing | plugins/fdReadoutCreator.cpp:193 | "TDEAMCFrame" yields nullptr |
| NdReadoutFactory.NdCreateReadout | plugins/ndReadoutCreator.cpp:49-89 | `ndReadoutCreator::create_readout`: PACMANFrame, then MPDFrame, initialised once, nullptr otherwise, size only reported |
| NdReadoutFactory.NdDecision | plugins/ndReadoutCreator.cpp:65-88 | a tag containing "PACMANFrame" builds PACMAN even if it also contains "MPDFrame"; otherwise "MPDFrame" builds MPD; otherwise nullptr |
| NdReadoutFactory.PACMANFrameSelectsNdPacman | plugins/ndReadoutCreator.cpp:65-74 | "PACMANFrame" builds the PACMAN readout |
| NdReadoutFactory.MPDFrameSelectsNdMpd | plugins/ndReadoutCreator.cpp:77-86 | "MPDFrame" builds the MPD readout |
| NdReadoutFactory.WIBFrameSelectsNothing | plugins/ndReadoutCreator.cpp:88 | a far-detector tag yields nullptr |
| SourceEmulators.CreateSourceEmulator | src/CreateSourceEmulator.hpp:42-130 | data types looked up by the connection's uid, the emulator named after its name, first match over the five patterns, tick difference and frames per tick of the chosen type, nullptr otherwise; no `init` here |
| SourceEmulators.WIBEthFrameSelectsWibEthLink | src/CreateSourceEmulator.hpp:62-65 | "WIBEthFrame" builds an emulator with tick difference 32*64 = 2048 and 1 frame per tick |
| SourceEmulators.WIB2FrameSelectsWib2Link | src/CreateSourceEmulator.hpp:57-60 | "WIB2Frame" builds an emulator with tick difference 32 and 1 frame per tick |
| SourceEmulators.WIBFrameSelectsWibLink | src/CreateSourceEmulator.hpp:52-55 | "WIBFrame" builds an emulator with tick difference 25 and 1 frame per tick |
| SourceEmulators.PDSFrameSelectsDaphneLink | src/CreateSourceEmulator.hpp:47-50 | "PDSFrame" builds an emulator with tick difference 16 and 1 frame per tick |
| SourceEmulators.TDEFrameSelectsTdeLink | src/CreateSourceEmulator.hpp:67-70 | "TDEFrame" builds an emulator with tick difference ticks_between_adc_samples*tot_adc16_samples and n_channels_per_amc frames per tick |
| SourceEmulators.PDSStreamFrameSelectsNothing | src/CreateSourceEmulator.hpp:129 | "PDSStreamFrame" yields nullptr |
| SourceEmulators.SSPFrameSelectsNothing | src/CreateSourceEmulator.hpp:129 | "SSPFrame" yields nullptr |
| SourceEmulators.TriggerPrimitiveSelectsNothing | src/CreateSourceEmulator.hpp:38 | trigger-primitive emulation is commented out: nullptr |
| SourceEmulators.PACMANFrameSelectsNothing | src/CreateSourceEmulator.hpp:129 | "PACMANFrame" yields nullptr |
| DataRecorders.DataRecorder.Init | plugins/DataRecorder.cpp:46-122 | every `ers::Issue` failure surfaces as DataRecorderResourceQueueError("Could not initialize queue", "raw_recording"); the recorder is set exactly when a pattern matches, before its own `init`, which then decides success |
| DataRecorders.DataRecorder.DoConf | plugins/DataRecorder.cpp:130-134 | forwards `conf` to the recorder |
| DataRecorders.DataRecorder.DoScrap | plugins/DataRecorder.cpp:136-140 | forwards `scrap` to the recorder |
| DataRecorders.DataRecorder.DoStart | plugins/DataRecorder.cpp:142-146 | forwards `start` to the recorder |
| DataRecorders.DataRecorder.DoStop | plugins/DataRecorder.cpp:148-152 | forwards `stop` to the recorder |
| DataRecorders.WIB2FrameChosen | plugins/DataRecorder.cpp:62-67 | "WIB2Frame" picks the DUNE-WIB recorder |
| DataRecorders.WIBFrameChosen | plugins/DataRecorder.cpp:70-75 | "WIBFrame" picks the ProtoWIB recorder |
| DataRecorders.WIBEthFrameChosen | plugins/DataRecorder.cpp:78-83 | "WIBEthFrame" picks the WIBEth recorder |
| DataRecorders.PDSFrameChosen | plugins/DataRecorder.cpp:86-91 | "PDSFrame" picks the DAPHNE recorder |
| DataRecorders.PACMANFrameChosen | plugins/DataRecorder.cpp:94-99 | "PACMANFrame" picks the PACMAN recorder |
| DataRecorders.MPDFrameChosen | plugins/DataRecorder.cpp:102-107 | "MPDFrame" picks the MPD recorder |
| DataRecorders.TDEFrameChosen | plugins/DataRecorder.cpp:110-115 | "TDEFrame" picks the TDE recorder |
| DataRecorders.PDSStreamFrameRejected | plugins/DataRecorder.cpp:117 | "PDSStreamFrame" matches nothing, so `init` fails |
| DataRecorders.SSPFrameRejected | plugins/DataRecorder.cpp:117 | "SSPFrame" matches nothing, so `init` fails |
| DataRecorders.TriggerPrimitiveRejected | plugins/DataRecorder.cpp:117 | "TriggerPrimitive" matches nothing, so `init` fails |
| EmulatorLinks.Acted | plugins/FakeCardReader.cpp:54-57 | the connections `init` acts on: all of them, or only the outputs |
| EmulatorLinks.DistinctByCons | plugins/FakeCardReader.cpp:60-63 | distinct names, split into head and tail |
| EmulatorLinks.Bind | plugins/FakeCardReader.cpp:54-74 | the map after binding in order. The first failure stops the loop: a duplicate name, a factory issue (no entry), a nullptr (stored), the emulator's `init` raising (stored uninitialised) or `set_sender` raising (stored without sender). Each is rethrown as a ResourceQueueError naming the connection |
| EmulatorLinks.BindKeepsAndBlames | plugins/FakeCardReader.cpp:59-73 | existing entries are never changed. A failure is a ResourceQueueError naming one acted-on connection and carrying FailedFakeCardInitialization or the issue raised for that connection |
| EmulatorLinks.BindSucceedsIff | plugins/FakeCardReader.cpp:59-73 | `init` succeeds exactly when names are distinct, none is already bound, every emulator is created and none of the factory, `init` or `set_sender` calls raises |
| EmulatorLinks.BindContents | plugins/FakeCardReader.cpp:64-70 | on success the map gains exactly the connection names, each bound to its emulator, initialised once and sent to its uid |
| EmulatorLinks.NullEmulatorStays | plugins/FakeCardReader.cpp:64-67 | a null emulator is stored before the check that rejects it |
| EmulatorLinks.ThrowingEmulatorStays | plugins/FakeCardReader.cpp:64-72 | an issue raised by the emulator's `init` or `set_sender` is rethrown with that cause. The emulator stays stored, uninitialised or without its sender |
| EmulatorLinks.CreateThrowLeavesNoEntry | plugins/FakeCardReader.cpp:64-72 | an issue raised by `createSourceEmulator` is rethrown with that cause, and the map is unchanged |
| EmulatorLinks.ConfigureAll | plugins/FakeCardReader.cpp:98-108 | configuring the listed emulators keeps the map's keys and entries |
| EmulatorLinks.ConfigureAllSucceedsIff | plugins/FakeCardReader.cpp:98-107 | the pass succeeds exactly when the queue names are distinct, known and not yet configured |
| EmulatorLinks.ConfigureAllContents | plugins/FakeCardReader.cpp:107 | on success exactly the listed emulators are newly configured |
| EmulatorLinks.ConfigureAllKeepsEarlier | plugins/FakeCardReader.cpp:98-108 | an emulator already configured stays configured whatever the pass does |
| EmulatorLinks.ConfigureAllNotAtomic | plugins/FakeCardReader.cpp:98-108 | a pass failing on an unknown queue leaves earlier emulators configured |
| EmulatorLinks.Conf | plugins/FakeCardReader.cpp:96-114 | the configure pass, then the all-configured check; success leaves every emulator configured |
| EmulatorLinks.ConfSucceedsIff | plugins/FakeCardReader.cpp:96-114 | `do_conf` succeeds exactly when the pass succeeds and every emulator left out of it was already configured |
| EmulatorLinks.ApplyAll | plugins/FakeCardReader.cpp:128-130 | one command applied to every emulator, keys unchanged |
| EmulatorLinks.BindLinks | plugins/FakeCardReader.cpp:54-74 | the `init` loop, with its direction filter, duplicate check, factory call, null check, `init` and `set_sender` steps and local catch, computes Bind over the acted-on connections |
| EmulatorLinks.ConfigureLinks | plugins/FakeCardReader.cpp:98-114 | the `do_conf` loops compute Conf |
| EmulatorLinks.ApplyToAll | plugins/FakeCardReader.cpp:143-145 | the loop over the map computes ApplyAll |
| FakeCardReaders.InitOutcome | plugins/FakeCardReader.cpp:54-74 | on success the map gains exactly the output connections' names. A failure is a ResourceQueueError naming one output connection, carrying FailedFakeCardInitialization or the issue raised for it |
| FakeCardReaders.FakeCardReader.constructor | plugins/FakeCardReader.cpp:38-47 | unconfigured, run marker down, no emulator |
| FakeCardReaders.FakeCardReader.Init | plugins/FakeCardReader.cpp:49-77 | binds an emulator for each output connection, created by `createSourceEmulator`, with every failure path of Bind, including the factory, `init` and `set_sender` raising |
| FakeCardReaders.FakeCardReader.DoConf | plugins/FakeCardReader.cpp:88-121 | a no-op once configured; otherwise Conf, and configured only after both checks pass |
| FakeCardReaders.FakeCardReader.DoScrap | plugins/FakeCardReader.cpp:123-135 | every emulator scrapped, module unconfigured |
| FakeCardReaders.FakeCardReader.DoStart | plugins/FakeCardReader.cpp:136-148 | run marker raised, then every emulator started and seeing it raised |
| FakeCardReaders.FakeCardReader.DoStop | plugins/FakeCardReader.cpp:150-162 | run marker lowered, then every emulator stopped and seeing it lowered |
| FakeCardReaderBases.InitOutcome | include/readoutmodules/detail/FakeCardReaderBase.hxx:17-41 | on success every connection, of any direction, is bound, initialised once and sent to its uid, and none of the calls raised. A failure is a ResourceQueueError naming one connection, carrying FailedFakeCardInitialization or the issue raised for it |
| FakeCardReaderBases.FakeCardReaderBase.constructor | include/readoutmodules/detail/FakeCardReaderBase.hxx:4-15 | unconfigured, run marker down |
| FakeCardReaderBases.FakeCardReaderBase.Init | include/readoutmodules/detail/FakeCardReaderBase.hxx:17-41 | binds an emulator for every connection with the reader's own factory, with every failure path of Bind, including the factory, `init` and `set_sender` raising |
| FakeCardReaderBases.FakeCardReaderBase.DoConf | include/readoutmodules/detail/FakeCardReaderBase.hxx:52-85 | a no-op once configured; otherwise Conf, and configured only when every emulator is |
| FakeCardReaderBases.FakeCardReaderBase.DoScrap | include/readoutmodules/detail/FakeCardReaderBase.hxx:87-99 | every emulator scrapped, module unconfigured |
| FakeCardReaderBases.FakeCardReaderBase.DoStart | include/readoutmodules/detail/FakeCardReaderBase.hxx:100-112 | run marker raised before every emulator starts |
| FakeCardReaderBases.FakeCardReaderBase.DoStop | include/readoutmodules/detail/FakeCardReaderBase.hxx:114-126 | run marker lowered before every emulator stops |
| DataLinkHandlers.DataLinkHandlerBase.constructor | include/readoutmodules/detail/DataLinkHandlerBase.hxx:4-17 | unconfigured, null implementation, run marker down |
| DataLinkHandlers.DataLinkHandlerBase.Init | include/readoutmodules/detail/DataLinkHandlerBase.hxx:20-36 | not a ReadoutModule: FailedReadoutInitialization. An issue raised by `create_readout` escapes unchanged and leaves the implementation as it was. Otherwise the result is stored, and a null one fails |
| DataLinkHandlers.DataLinkHandlerBase.DoConf | include/readoutmodules/detail/DataLinkHandlerBase.hxx:44-51 | forwarded, then configured with no check of the prior state |
| DataLinkHandlers.DataLinkHandlerBase.DoScrap | include/readoutmodules/detail/DataLinkHandlerBase.hxx:53-60 | forwarded, then unconfigured |
| DataLinkHandlers.DataLinkHandlerBase.DoStart | include/readoutmodules/detail/DataLinkHandlerBase.hxx:61-71 | marker raised before the implementation starts; the run number of the start is kept |
| DataLinkHandlers.DataLinkHandlerBase.DoStop | include/readoutmodules/detail/DataLinkHandlerBase.hxx:73-81 | marker lowered before the implementation stops; run number unchanged |
| DataLinkHandlers.DataLinkHandlerBase.DoRecord | include/readoutmodules/detail/DataLinkHandlerBase.hxx:83-89 | forwarded in any state; one more recording request |
| DummyConsumers.Delivered | plugins/DummyConsumer.cpp:81-88 | the elements a run of receives delivers, at most one per receive |
| DummyConsumers.DeliveredAppend | plugins/DummyConsumer.cpp:81-88 | receiving in two stretches delivers the concatenation |
| DummyConsumers.DeliveredMembers | plugins/DummyConsumer.cpp:83-84 | an element is delivered exactly when some receive returned it |
| DummyConsumers.DeliveredCount | plugins/DummyConsumer.cpp:83-87 | delivered count is receives minus timeouts |
| DummyConsumers.Timeouts | plugins/DummyConsumer.cpp:86-87 | timeouts are at most the receives |
| DummyConsumers.PollsUntilReady | plugins/DummyConsumer.cpp:71-73 | the polls before the first ready answer: none earlier was ready, and the one after is |
| DummyConsumers.DummyConsumer.constructor | plugins/DummyConsumer.cpp:26-33 | no receiver yet; the count starts at zero |
| DummyConsumers.DummyConsumer.Init | plugins/DummyConsumer.cpp:35-45 | a lookup failure is rethrown as GenericResourceQueueError("input_queue", name, cause) |
| DummyConsumers.DummyConsumer.DoStart | plugins/DummyConsumer.cpp:57-64 | count reset to 0 and marker raised |
| DummyConsumers.DummyConsumer.DoStop | plugins/DummyConsumer.cpp:66-74 | marker lowered first, then one sleep per poll until ready |
| DummyConsumers.DummyConsumer.DoWork | plugins/DummyConsumer.cpp:76-90 | while the marker is up, every delivered element is handed to the callback in order and counted once; timeouts count nothing |
| DummyConsumers.DummyConsumer.GetInfo | plugins/DummyConsumer.cpp:47-55 | reports the current count |
| ErroredFrameConsumers.Pow2Of16 | plugins/ErroredFrameConsumer.cpp:36 | 2 to the 16th is 0x10000 |
| ErroredFrameConsumers.PopCount | plugins/ErroredFrameConsumer.cpp:36 | the set bits among the low `width` bits, at most `width` |
| ErroredFrameConsumers.PopCountZeroIff | plugins/ErroredFrameConsumer.cpp:35-36 | a value that fits has no set bit exactly when it is zero |
| ErroredFrameConsumers.PopCountAllOnes | plugins/ErroredFrameConsumer.cpp:36 | all ones counts every bit |
| ErroredFrameConsumers.ErrorBits | plugins/ErroredFrameConsumer.cpp:35-36 | `bitset<16>(wib_errors).count()` lies in 0..16 and is 0 exactly for an error-free header |
| ErroredFrameConsumers.AllErrorBits | plugins/ErroredFrameConsumer.cpp:36 | a header with every error bit set adds 16 |
| ErroredFrameConsumers.ErrorsIn | plugins/ErroredFrameConsumer.cpp:33-40 | the errors of a run of frames, at most 16 per frame |
| ErroredFrameConsumers.ErrorsInAppend | plugins/ErroredFrameConsumer.cpp:33-40 | counts over two runs add up |
| ErroredFrameConsumers.ErrorsInZeroIff | plugins/ErroredFrameConsumer.cpp:35 | frames add nothing exactly when none reports an error |
| ErroredFrameConsumers.ErroredFrameConsumer.PacketCallback | plugins/ErroredFrameConsumer.cpp:33-40 | the count grows by the frame's error bits, between 0 and 16; nothing else changes |
| ErroredFrameConsumers.ErroredFrameConsumer.Callbacks | plugins/ErroredFrameConsumer.cpp:33-40 | the callbacks of a run add the run's error count |
| CpuPinning.TidFor | plugins/CPUPinner.cpp:112-131 | -1 exactly when no task has the name, otherwise a task with that name and id |
| CpuPinning.Unpinned | plugins/CPUPinner.cpp:73-87 | the entries a pass keeps, no more than it was given |
| CpuPinning.PinsFor | plugins/CPUPinner.cpp:73-87 | the affinity calls a pass makes, no more than the entries |
| CpuPinning.PassCounts | plugins/CPUPinner.cpp:68-87 | pinned plus kept equals the entries of a pass |
| CpuPinning.UnpinnedMembers | plugins/CPUPinner.cpp:73-87 | a pass keeps exactly the entries whose thread it does not find |
| CpuPinning.PinsForMembers | plugins/CPUPinner.cpp:75-83 | each affinity call pins a found thread to its entry's CPU set |
| CpuPinning.SecondPassPinsNothing | plugins/CPUPinner.cpp:71-82 | a pinned entry is erased, so a second pass with the same threads pins nothing and keeps everything |
| CpuPinning.NothingFound | plugins/CPUPinner.cpp:73-87 | a list none of whose threads is found is neither pinned nor shortened |
| CpuPinning.Remaining | plugins/CPUPinner.cpp:70-95 | the list after several passes is no longer than at the start |
| CpuPinning.PassesCount | plugins/CPUPinner.cpp:68-97 | over all passes pinned plus remaining equals requested |
| CpuPinning.EmptyStaysEmpty | plugins/CPUPinner.cpp:89-92 | once the list is empty further passes do nothing, so stopping there changes nothing |
| CpuPinning.TidForName | plugins/CPUPinner.cpp:112-131 | the scan of the tasks computes TidFor |
| CpuPinning.BuildCpuSet | plugins/CPUPinner.cpp:101-110 | the CPU set holds exactly the listed CPUs below CPU_SETSIZE |
| CpuPinning.CPUPinner.constructor | plugins/CPUPinner.cpp:20-30 | no entries, no affinity calls |
| CpuPinning.CPUPinner.DoConf | plugins/CPUPinner.cpp:40-45 | the configuration is replaced wholesale |
| CpuPinning.CPUPinner.PinPass | plugins/CPUPinner.cpp:73-87 | erase-while-iterating leaves Unpinned, logs PinsFor in list order, and returns how many were erased |
| CpuPinning.CPUPinner.DoWork | plugins/CPUPinner.cpp:65-98 | the passes leave Remaining and log PinLog, stopping once the list is empty; pinned plus remaining equals requested |
| ReadoutModulesIssues.IsA | include/readoutmodules/ReadoutModulesIssues.hpp:18-154 | an issue is a kind of another exactly when it is that issue or names it as its base |
| ReadoutModulesIssues.DerivedIssues | include/readoutmodules/ReadoutModulesIssues.hpp:60-129 | exactly four issues are declared with a base, and every base is a root: depth 1 |
| ReadoutModulesIssues.DeclaredBases | include/readoutmodules/ReadoutModulesIssues.hpp:60-129 | CannotReadFile and NoImplementationAvailableError are ConfigurationErrors, FailedReadoutInitialization an InitializationError, DataRecorderResourceQueueError a DataRecorderConfigurationError |
| ReadoutModulesIssues.ConfigurationRoots | include/readoutmodules/ReadoutModulesIssues.hpp:33-51 | GenericConfigurationError and DataRecorderConfigurationError are not ConfigurationErrors; exactly three kinds are |
| ReadoutModulesIssues.BaseIsRoot | include/readoutmodules/ReadoutModulesIssues.hpp:60-129 | no issue derives from a derived issue |
| ReadoutModulesIssues.IsAAntisymmetric | include/readoutmodules/ReadoutModulesIssues.hpp:60-129 | two kinds that are each a kind of the other are equal |
| ReadoutModulesIssues.IsATransitive | include/readoutmodules/ReadoutModulesIssues.hpp:60-129 | the kind-of relation is transitive |
| ReadoutModulesIssues.RaisedFailuresCaughtAs | include/readoutmodules/detail/DataLinkHandlerBase.hxx:27-33 | only the link handler's FailedReadoutInitialization is an issue of this header. It is caught exactly as itself or as an InitializationError, never as a ConfigurationError |

## Left out

- Plugin loading is not modelled. This covers `make(spec)` in
  plugins/fdReadoutCreator.cpp:201-205 and plugins/ndReadoutCreator.cpp:96-100,
  `make_command_facility` and the `cet::BasicPluginFactory` lookup. `make`
  only returns a new creator.
- Command registration names are not modelled. The renames are noted in
  comments: "drain_dataflow" and "stop_trigger_sources" map to `do_stop`.
- Framework lookups are inputs: `IOManager::get_datatypes`,
  `connection_index`, `ModInit`, `ModuleConfiguration`, receivers and
  senders. `args` and configuration payloads are not modelled beyond the
  fields read.
- Pipeline internals are left to readoutlibs, which is not part of this
  model. That covers ReadoutModel, SourceEmulatorModel, RecorderModel,
  latency buffers and request handling. Their `conf`, `scrap`, `start` and
  `stop` are taken to set the flags the modules check.
- Concurrency is not modelled: `ReusableThread`, `WorkerThread`,
  `std::atomic` ordering and the `sleep_for` calls. The run marker is a
  plain field, and a worker loop processes a given sequence of outcomes or
  passes.
- Floating-point emulator parameters are left out: dropout rates, kHz rates
  and `emu_frame_error_rate`.
- plugins/FragmentSender.cpp, plugins/FragmentConsumer.cpp,
  plugins/TimeSyncConsumer.cpp, the FD/ND data-link-handler wrappers and
  python/readoutmodules/app_confgen.py are not part of this model. They
  are network serialisation, dead validation code, template
  instantiations, delegation and configuration generation.
- Logging is not modelled: `TLOG`, `ers::error` text and the
  `get_info`/opmon plumbing. The exception is DummyConsumer's count and the
  "size reported" flag of the factories.
- System calls are not modelled. The `/proc/self/task` scan is a list of
  tasks, `std::stoi` of the directory name is the task's id, and
  `sched_setaffinity` is recorded as a log entry.
- CpuPinning.CPUPinner.DoWork: the running flag is given as the number of
  passes made. The 300 ms sleep between passes is not modelled.
- DummyConsumers.DummyConsumer.DoWork: `m_packets_processed` is unbounded
  here. The source's counter is a fixed-width integer whose overflow is not
  modelled.
- ErroredFrameConsumers.ErroredFrameConsumer.PacketCallback: `m_error_count`
  is an unbounded integer. The 32-bit `int` overflow is not modelled, and
  the uninitialised start value is whatever the field holds.
- DummyConsumers.DummyConsumer.constructor: `m_run_marker` is left
  unspecified, as the constructor leaves it.
- CpuPinning.BuildCpuSet: CPUs outside 0..CPU_SETSIZE-1 are dropped, as
  glibc's CPU_SET does. CPU_SETSIZE is taken to be 1024.
- Dereferencing a null pipeline is undefined behaviour, so it is a
  precondition rather than a modelled outcome. Examples are `do_conf` on a
  link handler whose `init` failed, or on an emulator map holding a null
  entry.
- The data-type "set" is a sequence of at least one element. An empty set
  is undefined behaviour in the source (`*datatypes.begin()`).
- Dispatch.Create: a readout model whose own `init(args)` raises is not
  modelled. Such an issue escapes `createReadout` and the other creators
  unchanged. The model takes every `init` of a created readout to return.
  DataLinkHandlerBase.Init takes the escaping issue as its `raised` input.
- ReadoutFactory.CreateReadout: the same gap. A raising readout-model
  `init` at src/CreateReadout.hpp:107-108 and the other branches is not
  modelled.
- FdReadoutFactory.FdCreateReadout: the same gap, for the branches of
  plugins/fdReadoutCreator.cpp.
- NdReadoutFactory.NdCreateReadout: the same gap, for
  plugins/ndReadoutCreator.cpp:72-73 and 84-85.
- CPUPinner's `init`, `get_info` and `do_scrap` are empty, and are not
  modelled. Its `do_start` and `do_stop` only start and stop the worker
  thread, which is concurrency.
- Issue messages and carried fields other than those the throw sites fill
  in are not modelled. Issues declared by readoutlibs are represented by the
  `Failures.Failure` constructors their throw sites use.

## Findings

| source | as written | input that shows it | evidently intended | confidence | as-written member | corrected member |
|---|---|---|---|---|---|---|
| src/CreateReadout.hpp:201-222 | the "TriggerPrimitive" test comes before the "FWTriggerPrimitive" test, and the first contains the second's pattern, so the firmware trigger-primitive branch is unreachable | data type "FWTriggerPrimitive" builds the software trigger-primitive readout | test "FWTriggerPrimitive" first, so the firmware type gets the firmware readout | not executed | ReadoutFactory.FwTriggerPrimitiveUnreachable | ReadoutFactory.IntendedFWTriggerPrimitiveSelectsFwTriggerPrimitive |
