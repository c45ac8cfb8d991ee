/**
 * DataRecorder (plugins/DataRecorder.cpp): a module that records the raw
 * data of one link. `init` picks the RecorderModel specialisation from the
 * data type of its "raw_recording" connection by a first-match chain;
 * "conf", "scrap", "start" and "stop_trigger_sources" (bound to `do_stop`)
 * are forwarded to the recorder.
 */
module DataRecorders {
  import opened Wrappers
  import opened Substring
  import opened Dispatch
  import opened Pipelines
  import opened Failures
  import opened TypeStrings

  /** The RecorderModel specialisations, by type adapter. */
  datatype Recording =
    | DuneWib      // DUNEWIBSuperChunkTypeAdapter
    | ProtoWib     // ProtoWIBSuperChunkTypeAdapter
    | DuneWibEth   // DUNEWIBEthTypeAdapter
    | Daphne       // DAPHNESuperChunkTypeAdapter
    | Pacman       // PACMAN_MESSAGE_STRUCT
    | Mpd          // MPD_MESSAGE_STRUCT
    | Tde          // TDEFrameTypeAdapter

  /** The branches of `init` in the order the if-chain tests them. */
  const RecorderBranches: seq<(string, Recording)> := [
    ("WIB2Frame", DuneWib),
    ("WIBFrame", ProtoWib),
    ("WIBEthFrame", DuneWibEth),
    ("PDSFrame", Daphne),
    ("PACMANFrame", Pacman),
    ("MPDFrame", Mpd),
    ("TDEFrame", Tde)
  ]

  /**
   * What every failure of `init` surfaces as: the `ers::Issue` handler
   * replaces the lookup failure, the DataRecorderConfigurationError of an
   * unknown type and a failing `recorder->init` alike.
   */
  const InitFailure: Failure := DataRecorderResourceQueueError("Could not initialize queue", "raw_recording")

  class DataRecorder {
    const name: string
    var recorder: Option<Pipeline<Recording>>   // nullptr until `init` picks one

    constructor (name: string)
      ensures this.name == name && recorder == None
    {
      this.name := name;
      recorder := None;
    }

    /**
     * `init`. `lookup` is what the framework returns for the
     * "raw_recording" connection's data types (None when the lookup
     * throws); `recorderInitOk` says whether the chosen recorder's own
     * `init(args)` succeeds. A data-type set whose size is not one is only
     * reported. On a match the recorder is assigned once, before its
     * `init` runs, so it stays assigned when that `init` fails.
     */
    method Init(lookup: Option<seq<string>>, recorderInitOk: bool) returns (failure: Option<Failure>, sizeReported: bool)
      requires lookup.Some? ==> |lookup.value| >= 1
      modifies this`recorder
      ensures failure.Some? ==> failure.value == InitFailure
      ensures sizeReported <==> lookup.Some? && |lookup.value| != 1
      ensures lookup.None? ==> failure.Some? && recorder == old(recorder)
      ensures lookup.Some? && Select(RecorderBranches, lookup.value[0]).None? ==>
        failure.Some? && recorder == old(recorder)
      ensures lookup.Some? && Select(RecorderBranches, lookup.value[0]).Some? ==>
        var kind := Select(RecorderBranches, lookup.value[0]).value;
        (failure.None? <==> recorderInitOk) &&
        recorder == Some(if recorderInitOk then Initialized(Created(kind)) else Created(kind))
    {
      sizeReported := false;
      if lookup.None? {
        return Some(InitFailure), sizeReported;
      }
      var datatypes := lookup.value;
      sizeReported := |datatypes| != 1;
      var rawDt := datatypes[0];
      match Select(RecorderBranches, rawDt)
      case None =>
        failure := Some(InitFailure);
      case Some(kind) =>
        recorder := Some(Created(kind));
        if !recorderInitOk {
          return Some(InitFailure), sizeReported;
        }
        recorder := Some(Initialized(recorder.value));
        failure := None;
    }

    /** `do_conf`: forwarded to the recorder. */
    method DoConf()
      requires recorder.Some?
      modifies this`recorder
      ensures recorder == Some(Configured(old(recorder).value))
    {
      recorder := Some(Configured(recorder.value));
    }

    /** `do_scrap`: forwarded to the recorder. */
    method DoScrap()
      requires recorder.Some?
      modifies this`recorder
      ensures recorder == Some(Scrapped(old(recorder).value))
    {
      recorder := Some(Scrapped(recorder.value));
    }

    /** `do_start`: forwarded to the recorder, which raises its own run marker. */
    method DoStart()
      requires recorder.Some?
      modifies this`recorder
      ensures recorder == Some(Started(old(recorder).value, true))
    {
      recorder := Some(Started(recorder.value, true));
    }

    /** `do_stop` ("stop_trigger_sources"): forwarded to the recorder, which lowers its own run marker. */
    method DoStop()
      requires recorder.Some?
      modifies this`recorder
      ensures recorder == Some(Stopped(old(recorder).value, false))
    {
      recorder := Some(Stopped(recorder.value, false));
    }
  }

  /** "WIB2Frame" is taken by the "WIB2Frame" branch: no earlier pattern occurs in it. */
  lemma WIB2FrameChosen()
    ensures Select(RecorderBranches, "WIB2Frame") == Some(DuneWib)
  {
    var tag := "WIB2Frame";
    ContainsSelf(tag);
    SelectsRow(RecorderBranches, tag, 0);
  }

  /** No pattern of row 0 of RecorderBranches occurs in "WIBFrame". */
  lemma WIBFrameSkipsRow0()
    ensures forall j :: 0 <= j < 1 ==> !Contains("WIBFrame", RecorderBranches[j].0)
  {
    var tag := "WIBFrame";
    forall j | 0 <= j < 1 ensures !Contains(tag, RecorderBranches[j].0) {
      WIBFrameLacksWIB2Frame();
    }
  }

  /** "WIBFrame" is taken by the "WIBFrame" branch: no earlier pattern occurs in it. */
  lemma WIBFrameChosen()
    ensures Select(RecorderBranches, "WIBFrame") == Some(ProtoWib)
  {
    var tag := "WIBFrame";
    WIBFrameSkipsRow0();
    ContainsSelf(tag);
    SelectsRow(RecorderBranches, tag, 1);
  }

  /** No pattern of rows 0 to 1 of RecorderBranches occurs in "WIBEthFrame". */
  lemma WIBEthFrameSkipsRows0To1()
    ensures forall j :: 0 <= j < 2 ==> !Contains("WIBEthFrame", RecorderBranches[j].0)
  {
    var tag := "WIBEthFrame";
    forall j | 0 <= j < 2 ensures !Contains(tag, RecorderBranches[j].0) {
      if j == 0 { WIBEthFrameLacksWIB2Frame(); }
      else { WIBEthFrameLacksWIBFrame(); }
    }
  }

  /** "WIBEthFrame" is taken by the "WIBEthFrame" branch: no earlier pattern occurs in it. */
  lemma WIBEthFrameChosen()
    ensures Select(RecorderBranches, "WIBEthFrame") == Some(DuneWibEth)
  {
    var tag := "WIBEthFrame";
    WIBEthFrameSkipsRows0To1();
    ContainsSelf(tag);
    SelectsRow(RecorderBranches, tag, 2);
  }

  /** No pattern of rows 0 to 2 of RecorderBranches occurs in "PDSFrame". */
  lemma PDSFrameSkipsRows0To2()
    ensures forall j :: 0 <= j < 3 ==> !Contains("PDSFrame", RecorderBranches[j].0)
  {
    var tag := "PDSFrame";
    forall j | 0 <= j < 3 ensures !Contains(tag, RecorderBranches[j].0) {
      if j == 0 { PDSFrameLacksWIB2Frame(); }
      else if j == 1 { PDSFrameLacksWIBFrame(); }
      else { PDSFrameLacksWIBEthFrame(); }
    }
  }

  /** "PDSFrame" is taken by the "PDSFrame" branch: no earlier pattern occurs in it. */
  lemma PDSFrameChosen()
    ensures Select(RecorderBranches, "PDSFrame") == Some(Daphne)
  {
    var tag := "PDSFrame";
    PDSFrameSkipsRows0To2();
    ContainsSelf(tag);
    SelectsRow(RecorderBranches, tag, 3);
  }

  /** No pattern of rows 0 to 3 of RecorderBranches occurs in "PACMANFrame". */
  lemma PACMANFrameSkipsRows0To3()
    ensures forall j :: 0 <= j < 4 ==> !Contains("PACMANFrame", RecorderBranches[j].0)
  {
    var tag := "PACMANFrame";
    forall j | 0 <= j < 4 ensures !Contains(tag, RecorderBranches[j].0) {
      if j == 0 { PACMANFrameLacksWIB2Frame(); }
      else if j == 1 { PACMANFrameLacksWIBFrame(); }
      else if j == 2 { PACMANFrameLacksWIBEthFrame(); }
      else { PACMANFrameLacksPDSFrame(); }
    }
  }

  /** "PACMANFrame" is taken by the "PACMANFrame" branch: no earlier pattern occurs in it. */
  lemma PACMANFrameChosen()
    ensures Select(RecorderBranches, "PACMANFrame") == Some(Pacman)
  {
    var tag := "PACMANFrame";
    PACMANFrameSkipsRows0To3();
    ContainsSelf(tag);
    SelectsRow(RecorderBranches, tag, 4);
  }

  /** No pattern of rows 0 to 4 of RecorderBranches occurs in "MPDFrame". */
  lemma MPDFrameSkipsRows0To4()
    ensures forall j :: 0 <= j < 5 ==> !Contains("MPDFrame", RecorderBranches[j].0)
  {
    var tag := "MPDFrame";
    forall j | 0 <= j < 5 ensures !Contains(tag, RecorderBranches[j].0) {
      if j == 0 { MPDFrameLacksWIB2Frame(); }
      else if j == 1 { MPDFrameLacksWIBFrame(); }
      else if j == 2 { MPDFrameLacksWIBEthFrame(); }
      else if j == 3 { MPDFrameLacksPDSFrame(); }
      else { MPDFrameLacksPACMANFrame(); }
    }
  }

  /** "MPDFrame" is taken by the "MPDFrame" branch: no earlier pattern occurs in it. */
  lemma MPDFrameChosen()
    ensures Select(RecorderBranches, "MPDFrame") == Some(Mpd)
  {
    var tag := "MPDFrame";
    MPDFrameSkipsRows0To4();
    ContainsSelf(tag);
    SelectsRow(RecorderBranches, tag, 5);
  }

  /** No pattern of rows 0 to 4 of RecorderBranches occurs in "TDEFrame". */
  lemma TDEFrameSkipsRows0To4()
    ensures forall j :: 0 <= j < 5 ==> !Contains("TDEFrame", RecorderBranches[j].0)
  {
    var tag := "TDEFrame";
    forall j | 0 <= j < 5 ensures !Contains(tag, RecorderBranches[j].0) {
      if j == 0 { TDEFrameLacksWIB2Frame(); }
      else if j == 1 { TDEFrameLacksWIBFrame(); }
      else if j == 2 { TDEFrameLacksWIBEthFrame(); }
      else if j == 3 { TDEFrameLacksPDSFrame(); }
      else { TDEFrameLacksPACMANFrame(); }
    }
  }

  /** No pattern of row 5 of RecorderBranches occurs in "TDEFrame". */
  lemma TDEFrameSkipsRow5()
    ensures forall j :: 5 <= j < 6 ==> !Contains("TDEFrame", RecorderBranches[j].0)
  {
    var tag := "TDEFrame";
    forall j | 5 <= j < 6 ensures !Contains(tag, RecorderBranches[j].0) {
      TDEFrameLacksMPDFrame();
    }
  }

  /** "TDEFrame" is taken by the "TDEFrame" branch: no earlier pattern occurs in it. */
  lemma TDEFrameChosen()
    ensures Select(RecorderBranches, "TDEFrame") == Some(Tde)
  {
    var tag := "TDEFrame";
    TDEFrameSkipsRows0To4();
    TDEFrameSkipsRow5();
    ContainsSelf(tag);
    SelectsRow(RecorderBranches, tag, 6);
  }

  /** No pattern of rows 0 to 4 of RecorderBranches occurs in "PDSStreamFrame". */
  lemma PDSStreamFrameSkipsRows0To4()
    ensures forall j :: 0 <= j < 5 ==> !Contains("PDSStreamFrame", RecorderBranches[j].0)
  {
    var tag := "PDSStreamFrame";
    forall j | 0 <= j < 5 ensures !Contains(tag, RecorderBranches[j].0) {
      if j == 0 { PDSStreamFrameLacksWIB2Frame(); }
      else if j == 1 { PDSStreamFrameLacksWIBFrame(); }
      else if j == 2 { PDSStreamFrameLacksWIBEthFrame(); }
      else if j == 3 { PDSStreamFrameLacksPDSFrame(); }
      else { PDSStreamFrameLacksPACMANFrame(); }
    }
  }

  /** No pattern of rows 5 to 6 of RecorderBranches occurs in "PDSStreamFrame". */
  lemma PDSStreamFrameSkipsRows5To6()
    ensures forall j :: 5 <= j < 7 ==> !Contains("PDSStreamFrame", RecorderBranches[j].0)
  {
    var tag := "PDSStreamFrame";
    forall j | 5 <= j < 7 ensures !Contains(tag, RecorderBranches[j].0) {
      if j == 5 { PDSStreamFrameLacksMPDFrame(); }
      else { PDSStreamFrameLacksTDEFrame(); }
    }
  }

  /** No pattern of the chain occurs in "PDSStreamFrame". */
  lemma PDSStreamFrameRejected()
    ensures Select(RecorderBranches, "PDSStreamFrame") == None
  {
    PDSStreamFrameSkipsRows0To4();
    PDSStreamFrameSkipsRows5To6();
    SelectsNothing(RecorderBranches, "PDSStreamFrame");
  }

  /** No pattern of rows 0 to 4 of RecorderBranches occurs in "SSPFrame". */
  lemma SSPFrameSkipsRows0To4()
    ensures forall j :: 0 <= j < 5 ==> !Contains("SSPFrame", RecorderBranches[j].0)
  {
    var tag := "SSPFrame";
    forall j | 0 <= j < 5 ensures !Contains(tag, RecorderBranches[j].0) {
      if j == 0 { SSPFrameLacksWIB2Frame(); }
      else if j == 1 { SSPFrameLacksWIBFrame(); }
      else if j == 2 { SSPFrameLacksWIBEthFrame(); }
      else if j == 3 { SSPFrameLacksPDSFrame(); }
      else { SSPFrameLacksPACMANFrame(); }
    }
  }

  /** No pattern of rows 5 to 6 of RecorderBranches occurs in "SSPFrame". */
  lemma SSPFrameSkipsRows5To6()
    ensures forall j :: 5 <= j < 7 ==> !Contains("SSPFrame", RecorderBranches[j].0)
  {
    var tag := "SSPFrame";
    forall j | 5 <= j < 7 ensures !Contains(tag, RecorderBranches[j].0) {
      if j == 5 { SSPFrameLacksMPDFrame(); }
      else { SSPFrameLacksTDEFrame(); }
    }
  }

  /** No pattern of the chain occurs in "SSPFrame". */
  lemma SSPFrameRejected()
    ensures Select(RecorderBranches, "SSPFrame") == None
  {
    SSPFrameSkipsRows0To4();
    SSPFrameSkipsRows5To6();
    SelectsNothing(RecorderBranches, "SSPFrame");
  }

  /** No pattern of rows 0 to 4 of RecorderBranches occurs in "TriggerPrimitive". */
  lemma TriggerPrimitiveSkipsRows0To4()
    ensures forall j :: 0 <= j < 5 ==> !Contains("TriggerPrimitive", RecorderBranches[j].0)
  {
    var tag := "TriggerPrimitive";
    forall j | 0 <= j < 5 ensures !Contains(tag, RecorderBranches[j].0) {
      if j == 0 { TriggerPrimitiveLacksWIB2Frame(); }
      else if j == 1 { TriggerPrimitiveLacksWIBFrame(); }
      else if j == 2 { TriggerPrimitiveLacksWIBEthFrame(); }
      else if j == 3 { TriggerPrimitiveLacksPDSFrame(); }
      else { TriggerPrimitiveLacksPACMANFrame(); }
    }
  }

  /** No pattern of rows 5 to 6 of RecorderBranches occurs in "TriggerPrimitive". */
  lemma TriggerPrimitiveSkipsRows5To6()
    ensures forall j :: 5 <= j < 7 ==> !Contains("TriggerPrimitive", RecorderBranches[j].0)
  {
    var tag := "TriggerPrimitive";
    forall j | 5 <= j < 7 ensures !Contains(tag, RecorderBranches[j].0) {
      if j == 5 { TriggerPrimitiveLacksMPDFrame(); }
      else { TriggerPrimitiveLacksTDEFrame(); }
    }
  }

  /** No pattern of the chain occurs in "TriggerPrimitive". */
  lemma TriggerPrimitiveRejected()
    ensures Select(RecorderBranches, "TriggerPrimitive") == None
  {
    TriggerPrimitiveSkipsRows0To4();
    TriggerPrimitiveSkipsRows5To6();
    SelectsNothing(RecorderBranches, "TriggerPrimitive");
  }
}
