/**
 * `createSourceEmulator`: picks the SourceEmulatorModel specialisation for
 * one output connection of a fake card reader, with the emulation parameters
 * of that detector type.
 */
module SourceEmulators {
  import opened Wrappers
  import opened Substring
  import opened Dispatch
  import opened Pipelines
  import opened Connections
  import opened TypeStrings

  /** The SourceEmulatorModel specialisations, by type adapter. */
  datatype Emulated =
    | WibEthLink   // DUNEWIBEthTypeAdapter
    | Wib2Link     // DUNEWIBSuperChunkTypeAdapter
    | WibLink      // ProtoWIBSuperChunkTypeAdapter
    | DaphneLink   // DAPHNESuperChunkTypeAdapter
    | TdeLink      // TDEFrameTypeAdapter

  /**
   * The TDE frame format constants of fddetdataformats (not part of this
   * model): ticks between ADC samples, ADC samples per frame, channels per AMC.
   */
  datatype TdeFormat = TdeFormat(ticksBetweenAdcSamples: nat, totAdc16Samples: nat, channelsPerAmc: nat)

  /**
   * An emulator as constructed: its specialisation, the link name it is
   * built with, the integer emulation parameters, and the sender set later
   * by `set_sender` (None until then).
   */
  datatype SourceEmulator = SourceEmulator(
    kind: Emulated,
    linkName: string,
    timeTickDiff: nat,
    framesPerTick: nat,
    sender: Option<string>)

  const WibEthTimeTickDiff: nat := 32 * 64
  const WibTimeTickDiff: nat := 25
  const Wib2TimeTickDiff: nat := 32
  const DaphneTimeTickDiff: nat := 16
  const FramesPerTick: nat := 1

  /** Time-tick difference of each specialisation. */
  function TimeTickDiff(kind: Emulated, fmt: TdeFormat): nat
  {
    match kind
    case WibEthLink => WibEthTimeTickDiff
    case Wib2Link => Wib2TimeTickDiff
    case WibLink => WibTimeTickDiff
    case DaphneLink => DaphneTimeTickDiff
    case TdeLink => fmt.ticksBetweenAdcSamples * fmt.totAdc16Samples
  }

  /** Frames per tick of each specialisation. */
  function FramesPerTickOf(kind: Emulated, fmt: TdeFormat): nat
  {
    if kind == TdeLink then fmt.channelsPerAmc else FramesPerTick
  }

  /** The branches in the order the if-chain tests them. */
  const EmulatorBranches: seq<(string, Emulated)> := [
    ("WIBEthFrame", WibEthLink),
    ("WIB2Frame", Wib2Link),
    ("WIBFrame", WibLink),
    ("PDSFrame", DaphneLink),
    ("TDEFrame", TdeLink)
  ]

  /** The emulator a branch constructs for connection `qi`. */
  function Emulator(kind: Emulated, qi: Connection, fmt: TdeFormat): SourceEmulator
  {
    SourceEmulator(kind, qi.name, TimeTickDiff(kind, fmt), FramesPerTickOf(kind, fmt), None)
  }

  /**
   * `createSourceEmulator(qi, run_marker)`, where `registry` stands for the
   * I/O manager's data types by connection uid. The data type is looked up
   * by `qi.uid`, the emulator is named after `qi.name`; no `init` is called
   * here. A data-type set whose size is not one is only reported.
   */
  function CreateSourceEmulator(qi: Connection, registry: map<string, seq<string>>, fmt: TdeFormat): (c: Creation<Pipeline<SourceEmulator>>)
    requires qi.uid in registry && |registry[qi.uid]| >= 1
    ensures c.sizeReported <==> |registry[qi.uid]| != 1
    ensures c.model.Some? <==> AnyMatch(EmulatorBranches, registry[qi.uid][0])
    ensures c.model.Some? ==> exists i :: Wins(EmulatorBranches, registry[qi.uid][0], i) && c.model.value.impl.kind == EmulatorBranches[i].1
    ensures c.model.Some? ==> c.model.value == Created(c.model.value.impl)
    ensures c.model.Some? ==> c.model.value.impl.linkName == qi.name && c.model.value.impl.sender == None
    ensures c.model.Some? ==> c.model.value.impl.timeTickDiff == TimeTickDiff(c.model.value.impl.kind, fmt)
    ensures c.model.Some? ==> c.model.value.impl.framesPerTick == FramesPerTickOf(c.model.value.impl.kind, fmt)
  {
    var datatypes := registry[qi.uid];
    var model := match Select(EmulatorBranches, datatypes[0])
      case None => None
      case Some(kind) => Some(Created(Emulator(kind, qi, fmt)));
    Creation(model, |datatypes| != 1)
  }

  /** "WIBEthFrame" is taken by the "WIBEthFrame" branch: no earlier pattern occurs in it. */
  lemma WIBEthFrameChosen()
    ensures Select(EmulatorBranches, "WIBEthFrame") == Some(WibEthLink)
  {
    var tag := "WIBEthFrame";
    ContainsSelf(tag);
    SelectsRow(EmulatorBranches, tag, 0);
  }

  /** A "WIBEthFrame" connection gets a WibEthLink emulator named after the connection, with time-tick difference 2048 and 1 frame(s) per tick. */
  lemma WIBEthFrameSelectsWibEthLink(qi: Connection, fmt: TdeFormat)
    ensures CreateSourceEmulator(qi, map[qi.uid := ["WIBEthFrame"]], fmt).model == Some(Created(SourceEmulator(WibEthLink, qi.name, 2048, 1, None)))
  {
    WIBEthFrameChosen();
  }

  /** No pattern of row 0 of EmulatorBranches occurs in "WIB2Frame". */
  lemma WIB2FrameSkipsRow0()
    ensures forall j :: 0 <= j < 1 ==> !Contains("WIB2Frame", EmulatorBranches[j].0)
  {
    var tag := "WIB2Frame";
    forall j | 0 <= j < 1 ensures !Contains(tag, EmulatorBranches[j].0) {
      WIB2FrameLacksWIBEthFrame();
    }
  }

  /** "WIB2Frame" is taken by the "WIB2Frame" branch: no earlier pattern occurs in it. */
  lemma WIB2FrameChosen()
    ensures Select(EmulatorBranches, "WIB2Frame") == Some(Wib2Link)
  {
    var tag := "WIB2Frame";
    WIB2FrameSkipsRow0();
    ContainsSelf(tag);
    SelectsRow(EmulatorBranches, tag, 1);
  }

  /** A "WIB2Frame" connection gets a Wib2Link emulator named after the connection, with time-tick difference 32 and 1 frame(s) per tick. */
  lemma WIB2FrameSelectsWib2Link(qi: Connection, fmt: TdeFormat)
    ensures CreateSourceEmulator(qi, map[qi.uid := ["WIB2Frame"]], fmt).model == Some(Created(SourceEmulator(Wib2Link, qi.name, 32, 1, None)))
  {
    WIB2FrameChosen();
  }

  /** No pattern of rows 0 to 1 of EmulatorBranches occurs in "WIBFrame". */
  lemma WIBFrameSkipsRows0To1()
    ensures forall j :: 0 <= j < 2 ==> !Contains("WIBFrame", EmulatorBranches[j].0)
  {
    var tag := "WIBFrame";
    forall j | 0 <= j < 2 ensures !Contains(tag, EmulatorBranches[j].0) {
      if j == 0 { WIBFrameLacksWIBEthFrame(); }
      else { WIBFrameLacksWIB2Frame(); }
    }
  }

  /** "WIBFrame" is taken by the "WIBFrame" branch: no earlier pattern occurs in it. */
  lemma WIBFrameChosen()
    ensures Select(EmulatorBranches, "WIBFrame") == Some(WibLink)
  {
    var tag := "WIBFrame";
    WIBFrameSkipsRows0To1();
    ContainsSelf(tag);
    SelectsRow(EmulatorBranches, tag, 2);
  }

  /** A "WIBFrame" connection gets a WibLink emulator named after the connection, with time-tick difference 25 and 1 frame(s) per tick. */
  lemma WIBFrameSelectsWibLink(qi: Connection, fmt: TdeFormat)
    ensures CreateSourceEmulator(qi, map[qi.uid := ["WIBFrame"]], fmt).model == Some(Created(SourceEmulator(WibLink, qi.name, 25, 1, None)))
  {
    WIBFrameChosen();
  }

  /** No pattern of rows 0 to 2 of EmulatorBranches occurs in "PDSFrame". */
  lemma PDSFrameSkipsRows0To2()
    ensures forall j :: 0 <= j < 3 ==> !Contains("PDSFrame", EmulatorBranches[j].0)
  {
    var tag := "PDSFrame";
    forall j | 0 <= j < 3 ensures !Contains(tag, EmulatorBranches[j].0) {
      if j == 0 { PDSFrameLacksWIBEthFrame(); }
      else if j == 1 { PDSFrameLacksWIB2Frame(); }
      else { PDSFrameLacksWIBFrame(); }
    }
  }

  /** "PDSFrame" is taken by the "PDSFrame" branch: no earlier pattern occurs in it. */
  lemma PDSFrameChosen()
    ensures Select(EmulatorBranches, "PDSFrame") == Some(DaphneLink)
  {
    var tag := "PDSFrame";
    PDSFrameSkipsRows0To2();
    ContainsSelf(tag);
    SelectsRow(EmulatorBranches, tag, 3);
  }

  /** A "PDSFrame" connection gets a DaphneLink emulator named after the connection, with time-tick difference 16 and 1 frame(s) per tick. */
  lemma PDSFrameSelectsDaphneLink(qi: Connection, fmt: TdeFormat)
    ensures CreateSourceEmulator(qi, map[qi.uid := ["PDSFrame"]], fmt).model == Some(Created(SourceEmulator(DaphneLink, qi.name, 16, 1, None)))
  {
    PDSFrameChosen();
  }

  /** No pattern of rows 0 to 3 of EmulatorBranches occurs in "TDEFrame". */
  lemma TDEFrameSkipsRows0To3()
    ensures forall j :: 0 <= j < 4 ==> !Contains("TDEFrame", EmulatorBranches[j].0)
  {
    var tag := "TDEFrame";
    forall j | 0 <= j < 4 ensures !Contains(tag, EmulatorBranches[j].0) {
      if j == 0 { TDEFrameLacksWIBEthFrame(); }
      else if j == 1 { TDEFrameLacksWIB2Frame(); }
      else if j == 2 { TDEFrameLacksWIBFrame(); }
      else { TDEFrameLacksPDSFrame(); }
    }
  }

  /** "TDEFrame" is taken by the "TDEFrame" branch: no earlier pattern occurs in it. */
  lemma TDEFrameChosen()
    ensures Select(EmulatorBranches, "TDEFrame") == Some(TdeLink)
  {
    var tag := "TDEFrame";
    TDEFrameSkipsRows0To3();
    ContainsSelf(tag);
    SelectsRow(EmulatorBranches, tag, 4);
  }

  /** A "TDEFrame" connection gets a TdeLink emulator named after the connection, with time-tick difference fmt.ticksBetweenAdcSamples * fmt.totAdc16Samples and fmt.channelsPerAmc frame(s) per tick. */
  lemma TDEFrameSelectsTdeLink(qi: Connection, fmt: TdeFormat)
    ensures CreateSourceEmulator(qi, map[qi.uid := ["TDEFrame"]], fmt).model == Some(Created(SourceEmulator(TdeLink, qi.name, fmt.ticksBetweenAdcSamples * fmt.totAdc16Samples, fmt.channelsPerAmc, None)))
  {
    TDEFrameChosen();
  }

  /** No pattern of rows 0 to 4 of EmulatorBranches occurs in "PDSStreamFrame". */
  lemma PDSStreamFrameSkipsRows0To4()
    ensures forall j :: 0 <= j < 5 ==> !Contains("PDSStreamFrame", EmulatorBranches[j].0)
  {
    var tag := "PDSStreamFrame";
    forall j | 0 <= j < 5 ensures !Contains(tag, EmulatorBranches[j].0) {
      if j == 0 { PDSStreamFrameLacksWIBEthFrame(); }
      else if j == 1 { PDSStreamFrameLacksWIB2Frame(); }
      else if j == 2 { PDSStreamFrameLacksWIBFrame(); }
      else if j == 3 { PDSStreamFrameLacksPDSFrame(); }
      else { PDSStreamFrameLacksTDEFrame(); }
    }
  }

  /** No pattern of the chain occurs in "PDSStreamFrame". */
  lemma PDSStreamFrameRejected()
    ensures Select(EmulatorBranches, "PDSStreamFrame") == None
  {
    PDSStreamFrameSkipsRows0To4();
    SelectsNothing(EmulatorBranches, "PDSStreamFrame");
  }

  /** A "PDSStreamFrame" connection gets no emulator (nullptr). */
  lemma PDSStreamFrameSelectsNothing(qi: Connection, fmt: TdeFormat)
    ensures CreateSourceEmulator(qi, map[qi.uid := ["PDSStreamFrame"]], fmt).model == None
  {
    PDSStreamFrameRejected();
  }

  /** No pattern of rows 0 to 4 of EmulatorBranches occurs in "SSPFrame". */
  lemma SSPFrameSkipsRows0To4()
    ensures forall j :: 0 <= j < 5 ==> !Contains("SSPFrame", EmulatorBranches[j].0)
  {
    var tag := "SSPFrame";
    forall j | 0 <= j < 5 ensures !Contains(tag, EmulatorBranches[j].0) {
      if j == 0 { SSPFrameLacksWIBEthFrame(); }
      else if j == 1 { SSPFrameLacksWIB2Frame(); }
      else if j == 2 { SSPFrameLacksWIBFrame(); }
      else if j == 3 { SSPFrameLacksPDSFrame(); }
      else { SSPFrameLacksTDEFrame(); }
    }
  }

  /** No pattern of the chain occurs in "SSPFrame". */
  lemma SSPFrameRejected()
    ensures Select(EmulatorBranches, "SSPFrame") == None
  {
    SSPFrameSkipsRows0To4();
    SelectsNothing(EmulatorBranches, "SSPFrame");
  }

  /** A "SSPFrame" connection gets no emulator (nullptr). */
  lemma SSPFrameSelectsNothing(qi: Connection, fmt: TdeFormat)
    ensures CreateSourceEmulator(qi, map[qi.uid := ["SSPFrame"]], fmt).model == None
  {
    SSPFrameRejected();
  }

  /** No pattern of rows 0 to 4 of EmulatorBranches occurs in "TriggerPrimitive". */
  lemma TriggerPrimitiveSkipsRows0To4()
    ensures forall j :: 0 <= j < 5 ==> !Contains("TriggerPrimitive", EmulatorBranches[j].0)
  {
    var tag := "TriggerPrimitive";
    forall j | 0 <= j < 5 ensures !Contains(tag, EmulatorBranches[j].0) {
      if j == 0 { TriggerPrimitiveLacksWIBEthFrame(); }
      else if j == 1 { TriggerPrimitiveLacksWIB2Frame(); }
      else if j == 2 { TriggerPrimitiveLacksWIBFrame(); }
      else if j == 3 { TriggerPrimitiveLacksPDSFrame(); }
      else { TriggerPrimitiveLacksTDEFrame(); }
    }
  }

  /** No pattern of the chain occurs in "TriggerPrimitive". */
  lemma TriggerPrimitiveRejected()
    ensures Select(EmulatorBranches, "TriggerPrimitive") == None
  {
    TriggerPrimitiveSkipsRows0To4();
    SelectsNothing(EmulatorBranches, "TriggerPrimitive");
  }

  /** A "TriggerPrimitive" connection gets no emulator (nullptr). */
  lemma TriggerPrimitiveSelectsNothing(qi: Connection, fmt: TdeFormat)
    ensures CreateSourceEmulator(qi, map[qi.uid := ["TriggerPrimitive"]], fmt).model == None
  {
    TriggerPrimitiveRejected();
  }

  /** No pattern of rows 0 to 4 of EmulatorBranches occurs in "PACMANFrame". */
  lemma PACMANFrameSkipsRows0To4()
    ensures forall j :: 0 <= j < 5 ==> !Contains("PACMANFrame", EmulatorBranches[j].0)
  {
    var tag := "PACMANFrame";
    forall j | 0 <= j < 5 ensures !Contains(tag, EmulatorBranches[j].0) {
      if j == 0 { PACMANFrameLacksWIBEthFrame(); }
      else if j == 1 { PACMANFrameLacksWIB2Frame(); }
      else if j == 2 { PACMANFrameLacksWIBFrame(); }
      else if j == 3 { PACMANFrameLacksPDSFrame(); }
      else { PACMANFrameLacksTDEFrame(); }
    }
  }

  /** No pattern of the chain occurs in "PACMANFrame". */
  lemma PACMANFrameRejected()
    ensures Select(EmulatorBranches, "PACMANFrame") == None
  {
    PACMANFrameSkipsRows0To4();
    SelectsNothing(EmulatorBranches, "PACMANFrame");
  }

  /** A "PACMANFrame" connection gets no emulator (nullptr). */
  lemma PACMANFrameSelectsNothing(qi: Connection, fmt: TdeFormat)
    ensures CreateSourceEmulator(qi, map[qi.uid := ["PACMANFrame"]], fmt).model == None
  {
    PACMANFrameRejected();
  }
}
