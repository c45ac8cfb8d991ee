/**
 * `fdReadoutCreator::create_readout`: the far-detector readout factory, the
 * same first-match chain as `createReadout` over the eight type strings the
 * plugin registers.
 */
module FdReadoutFactory {
  import opened Wrappers
  import opened Substring
  import opened Dispatch
  import opened Pipelines
  import opened Readouts
  import opened TypeStrings

  /** The branches in the order the if-chain tests them. */
  const FdBranches: seq<(string, Readout)> := [
    ("WIBFrame", ProtoWib),
    ("WIB2Frame", DuneWib),
    ("WIBEthFrame", DuneWibEth),
    ("PDSFrame", Daphne),
    ("PDSStreamFrame", DaphneStream),
    ("SSPFrame", Ssp),
    ("TDEFrame", Tde),
    ("TriggerPrimitive", SwTriggerPrimitive)
  ]

  /**
   * `create_readout(args, run_marker)` given the data types reported for
   * `raw_input`; a set whose size is not one is only reported.
   */
  function FdCreateReadout(datatypes: seq<string>): (c: Creation<Pipeline<Readout>>)
    requires |datatypes| >= 1
    ensures c.sizeReported <==> |datatypes| != 1
    ensures c.model.Some? <==> AnyMatch(FdBranches, datatypes[0])
    ensures c.model.Some? ==> exists i :: Wins(FdBranches, datatypes[0], i) && c.model.value.impl == FdBranches[i].1
    ensures c.model.Some? ==> c.model.value == Initialized(Created(c.model.value.impl))
  {
    Create(FdBranches, datatypes)
  }

  /** "WIBFrame" is taken by the "WIBFrame" branch: no earlier pattern occurs in it. */
  lemma WIBFrameChosen()
    ensures Select(FdBranches, "WIBFrame") == Some(ProtoWib)
  {
    var tag := "WIBFrame";
    ContainsSelf(tag);
    SelectsRow(FdBranches, tag, 0);
  }

  /** The far-detector factory builds the ProtoWib model for a "WIBFrame" link and calls its init once. */
  lemma WIBFrameSelectsProtoWib()
    ensures FdCreateReadout(["WIBFrame"]).model == Some(Initialized(Created(ProtoWib)))
  {
    WIBFrameChosen();
  }

  /** No pattern of row 0 of FdBranches occurs in "WIB2Frame". */
  lemma WIB2FrameSkipsRow0()
    ensures forall j :: 0 <= j < 1 ==> !Contains("WIB2Frame", FdBranches[j].0)
  {
    var tag := "WIB2Frame";
    forall j | 0 <= j < 1 ensures !Contains(tag, FdBranches[j].0) {
      WIB2FrameLacksWIBFrame();
    }
  }

  /** "WIB2Frame" is taken by the "WIB2Frame" branch: no earlier pattern occurs in it. */
  lemma WIB2FrameChosen()
    ensures Select(FdBranches, "WIB2Frame") == Some(DuneWib)
  {
    var tag := "WIB2Frame";
    WIB2FrameSkipsRow0();
    ContainsSelf(tag);
    SelectsRow(FdBranches, tag, 1);
  }

  /** The far-detector factory builds the DuneWib model for a "WIB2Frame" link and calls its init once. */
  lemma WIB2FrameSelectsDuneWib()
    ensures FdCreateReadout(["WIB2Frame"]).model == Some(Initialized(Created(DuneWib)))
  {
    WIB2FrameChosen();
  }

  /** No pattern of rows 0 to 1 of FdBranches occurs in "WIBEthFrame". */
  lemma WIBEthFrameSkipsRows0To1()
    ensures forall j :: 0 <= j < 2 ==> !Contains("WIBEthFrame", FdBranches[j].0)
  {
    var tag := "WIBEthFrame";
    forall j | 0 <= j < 2 ensures !Contains(tag, FdBranches[j].0) {
      if j == 0 { WIBEthFrameLacksWIBFrame(); }
      else { WIBEthFrameLacksWIB2Frame(); }
    }
  }

  /** "WIBEthFrame" is taken by the "WIBEthFrame" branch: no earlier pattern occurs in it. */
  lemma WIBEthFrameChosen()
    ensures Select(FdBranches, "WIBEthFrame") == Some(DuneWibEth)
  {
    var tag := "WIBEthFrame";
    WIBEthFrameSkipsRows0To1();
    ContainsSelf(tag);
    SelectsRow(FdBranches, tag, 2);
  }

  /** The far-detector factory builds the DuneWibEth model for a "WIBEthFrame" link and calls its init once. */
  lemma WIBEthFrameSelectsDuneWibEth()
    ensures FdCreateReadout(["WIBEthFrame"]).model == Some(Initialized(Created(DuneWibEth)))
  {
    WIBEthFrameChosen();
  }

  /** No pattern of rows 0 to 2 of FdBranches occurs in "PDSFrame". */
  lemma PDSFrameSkipsRows0To2()
    ensures forall j :: 0 <= j < 3 ==> !Contains("PDSFrame", FdBranches[j].0)
  {
    var tag := "PDSFrame";
    forall j | 0 <= j < 3 ensures !Contains(tag, FdBranches[j].0) {
      if j == 0 { PDSFrameLacksWIBFrame(); }
      else if j == 1 { PDSFrameLacksWIB2Frame(); }
      else { PDSFrameLacksWIBEthFrame(); }
    }
  }

  /** "PDSFrame" is taken by the "PDSFrame" branch: no earlier pattern occurs in it. */
  lemma PDSFrameChosen()
    ensures Select(FdBranches, "PDSFrame") == Some(Daphne)
  {
    var tag := "PDSFrame";
    PDSFrameSkipsRows0To2();
    ContainsSelf(tag);
    SelectsRow(FdBranches, tag, 3);
  }

  /** The far-detector factory builds the Daphne model for a "PDSFrame" link and calls its init once. */
  lemma PDSFrameSelectsDaphne()
    ensures FdCreateReadout(["PDSFrame"]).model == Some(Initialized(Created(Daphne)))
  {
    PDSFrameChosen();
  }

  /** No pattern of rows 0 to 3 of FdBranches occurs in "PDSStreamFrame". */
  lemma PDSStreamFrameSkipsRows0To3()
    ensures forall j :: 0 <= j < 4 ==> !Contains("PDSStreamFrame", FdBranches[j].0)
  {
    var tag := "PDSStreamFrame";
    forall j | 0 <= j < 4 ensures !Contains(tag, FdBranches[j].0) {
      if j == 0 { PDSStreamFrameLacksWIBFrame(); }
      else if j == 1 { PDSStreamFrameLacksWIB2Frame(); }
      else if j == 2 { PDSStreamFrameLacksWIBEthFrame(); }
      else { PDSStreamFrameLacksPDSFrame(); }
    }
  }

  /** "PDSStreamFrame" is taken by the "PDSStreamFrame" branch: no earlier pattern occurs in it. */
  lemma PDSStreamFrameChosen()
    ensures Select(FdBranches, "PDSStreamFrame") == Some(DaphneStream)
  {
    var tag := "PDSStreamFrame";
    PDSStreamFrameSkipsRows0To3();
    ContainsSelf(tag);
    SelectsRow(FdBranches, tag, 4);
  }

  /** The far-detector factory builds the DaphneStream model for a "PDSStreamFrame" link and calls its init once. */
  lemma PDSStreamFrameSelectsDaphneStream()
    ensures FdCreateReadout(["PDSStreamFrame"]).model == Some(Initialized(Created(DaphneStream)))
  {
    PDSStreamFrameChosen();
  }

  /** No pattern of rows 0 to 4 of FdBranches occurs in "SSPFrame". */
  lemma SSPFrameSkipsRows0To4()
    ensures forall j :: 0 <= j < 5 ==> !Contains("SSPFrame", FdBranches[j].0)
  {
    var tag := "SSPFrame";
    forall j | 0 <= j < 5 ensures !Contains(tag, FdBranches[j].0) {
      if j == 0 { SSPFrameLacksWIBFrame(); }
      else if j == 1 { SSPFrameLacksWIB2Frame(); }
      else if j == 2 { SSPFrameLacksWIBEthFrame(); }
      else if j == 3 { SSPFrameLacksPDSFrame(); }
      else { SSPFrameLacksPDSStreamFrame(); }
    }
  }

  /** "SSPFrame" is taken by the "SSPFrame" branch: no earlier pattern occurs in it. */
  lemma SSPFrameChosen()
    ensures Select(FdBranches, "SSPFrame") == Some(Ssp)
  {
    var tag := "SSPFrame";
    SSPFrameSkipsRows0To4();
    ContainsSelf(tag);
    SelectsRow(FdBranches, tag, 5);
  }

  /** The far-detector factory builds the Ssp model for a "SSPFrame" link and calls its init once. */
  lemma SSPFrameSelectsSsp()
    ensures FdCreateReadout(["SSPFrame"]).model == Some(Initialized(Created(Ssp)))
  {
    SSPFrameChosen();
  }

  /** No pattern of rows 0 to 4 of FdBranches occurs in "TDEFrame". */
  lemma TDEFrameSkipsRows0To4()
    ensures forall j :: 0 <= j < 5 ==> !Contains("TDEFrame", FdBranches[j].0)
  {
    var tag := "TDEFrame";
    forall j | 0 <= j < 5 ensures !Contains(tag, FdBranches[j].0) {
      if j == 0 { TDEFrameLacksWIBFrame(); }
      else if j == 1 { TDEFrameLacksWIB2Frame(); }
      else if j == 2 { TDEFrameLacksWIBEthFrame(); }
      else if j == 3 { TDEFrameLacksPDSFrame(); }
      else { TDEFrameLacksPDSStreamFrame(); }
    }
  }

  /** No pattern of row 5 of FdBranches occurs in "TDEFrame". */
  lemma TDEFrameSkipsRow5()
    ensures forall j :: 5 <= j < 6 ==> !Contains("TDEFrame", FdBranches[j].0)
  {
    var tag := "TDEFrame";
    forall j | 5 <= j < 6 ensures !Contains(tag, FdBranches[j].0) {
      TDEFrameLacksSSPFrame();
    }
  }

  /** "TDEFrame" is taken by the "TDEFrame" branch: no earlier pattern occurs in it. */
  lemma TDEFrameChosen()
    ensures Select(FdBranches, "TDEFrame") == Some(Tde)
  {
    var tag := "TDEFrame";
    TDEFrameSkipsRows0To4();
    TDEFrameSkipsRow5();
    ContainsSelf(tag);
    SelectsRow(FdBranches, tag, 6);
  }

  /** The far-detector factory builds the Tde model for a "TDEFrame" link and calls its init once. */
  lemma TDEFrameSelectsTde()
    ensures FdCreateReadout(["TDEFrame"]).model == Some(Initialized(Created(Tde)))
  {
    TDEFrameChosen();
  }

  /** No pattern of rows 0 to 4 of FdBranches occurs in "TriggerPrimitive". */
  lemma TriggerPrimitiveSkipsRows0To4()
    ensures forall j :: 0 <= j < 5 ==> !Contains("TriggerPrimitive", FdBranches[j].0)
  {
    var tag := "TriggerPrimitive";
    forall j | 0 <= j < 5 ensures !Contains(tag, FdBranches[j].0) {
      if j == 0 { TriggerPrimitiveLacksWIBFrame(); }
      else if j == 1 { TriggerPrimitiveLacksWIB2Frame(); }
      else if j == 2 { TriggerPrimitiveLacksWIBEthFrame(); }
      else if j == 3 { TriggerPrimitiveLacksPDSFrame(); }
      else { TriggerPrimitiveLacksPDSStreamFrame(); }
    }
  }

  /** No pattern of rows 5 to 6 of FdBranches occurs in "TriggerPrimitive". */
  lemma TriggerPrimitiveSkipsRows5To6()
    ensures forall j :: 5 <= j < 7 ==> !Contains("TriggerPrimitive", FdBranches[j].0)
  {
    var tag := "TriggerPrimitive";
    forall j | 5 <= j < 7 ensures !Contains(tag, FdBranches[j].0) {
      if j == 5 { TriggerPrimitiveLacksSSPFrame(); }
      else { TriggerPrimitiveLacksTDEFrame(); }
    }
  }

  /** "TriggerPrimitive" is taken by the "TriggerPrimitive" branch: no earlier pattern occurs in it. */
  lemma TriggerPrimitiveChosen()
    ensures Select(FdBranches, "TriggerPrimitive") == Some(SwTriggerPrimitive)
  {
    var tag := "TriggerPrimitive";
    TriggerPrimitiveSkipsRows0To4();
    TriggerPrimitiveSkipsRows5To6();
    ContainsSelf(tag);
    SelectsRow(FdBranches, tag, 7);
  }

  /** The far-detector factory builds the SwTriggerPrimitive model for a "TriggerPrimitive" link and calls its init once. */
  lemma TriggerPrimitiveSelectsSwTriggerPrimitive()
    ensures FdCreateReadout(["TriggerPrimitive"]).model == Some(Initialized(Created(SwTriggerPrimitive)))
  {
    TriggerPrimitiveChosen();
  }

  /** No pattern of rows 0 to 4 of FdBranches occurs in "PACMANFrame". */
  lemma PACMANFrameSkipsRows0To4()
    ensures forall j :: 0 <= j < 5 ==> !Contains("PACMANFrame", FdBranches[j].0)
  {
    var tag := "PACMANFrame";
    forall j | 0 <= j < 5 ensures !Contains(tag, FdBranches[j].0) {
      if j == 0 { PACMANFrameLacksWIBFrame(); }
      else if j == 1 { PACMANFrameLacksWIB2Frame(); }
      else if j == 2 { PACMANFrameLacksWIBEthFrame(); }
      else if j == 3 { PACMANFrameLacksPDSFrame(); }
      else { PACMANFrameLacksPDSStreamFrame(); }
    }
  }

  /** No pattern of rows 5 to 7 of FdBranches occurs in "PACMANFrame". */
  lemma PACMANFrameSkipsRows5To7()
    ensures forall j :: 5 <= j < 8 ==> !Contains("PACMANFrame", FdBranches[j].0)
  {
    var tag := "PACMANFrame";
    forall j | 5 <= j < 8 ensures !Contains(tag, FdBranches[j].0) {
      if j == 5 { PACMANFrameLacksSSPFrame(); }
      else if j == 6 { PACMANFrameLacksTDEFrame(); }
      else { PACMANFrameLacksTriggerPrimitive(); }
    }
  }

  /** No pattern of the chain occurs in "PACMANFrame". */
  lemma PACMANFrameRejected()
    ensures Select(FdBranches, "PACMANFrame") == None
  {
    PACMANFrameSkipsRows0To4();
    PACMANFrameSkipsRows5To7();
    SelectsNothing(FdBranches, "PACMANFrame");
  }

  /** The far-detector factory returns nullptr for a "PACMANFrame" link. */
  lemma PACMANFrameSelectsNothing()
    ensures FdCreateReadout(["PACMANFrame"]).model == None
  {
    PACMANFrameRejected();
  }

  /** No pattern of rows 0 to 4 of FdBranches occurs in "MPDFrame". */
  lemma MPDFrameSkipsRows0To4()
    ensures forall j :: 0 <= j < 5 ==> !Contains("MPDFrame", FdBranches[j].0)
  {
    var tag := "MPDFrame";
    forall j | 0 <= j < 5 ensures !Contains(tag, FdBranches[j].0) {
      if j == 0 { MPDFrameLacksWIBFrame(); }
      else if j == 1 { MPDFrameLacksWIB2Frame(); }
      else if j == 2 { MPDFrameLacksWIBEthFrame(); }
      else if j == 3 { MPDFrameLacksPDSFrame(); }
      else { MPDFrameLacksPDSStreamFrame(); }
    }
  }

  /** No pattern of rows 5 to 7 of FdBranches occurs in "MPDFrame". */
  lemma MPDFrameSkipsRows5To7()
    ensures forall j :: 5 <= j < 8 ==> !Contains("MPDFrame", FdBranches[j].0)
  {
    var tag := "MPDFrame";
    forall j | 5 <= j < 8 ensures !Contains(tag, FdBranches[j].0) {
      if j == 5 { MPDFrameLacksSSPFrame(); }
      else if j == 6 { MPDFrameLacksTDEFrame(); }
      else { MPDFrameLacksTriggerPrimitive(); }
    }
  }

  /** No pattern of the chain occurs in "MPDFrame". */
  lemma MPDFrameRejected()
    ensures Select(FdBranches, "MPDFrame") == None
  {
    MPDFrameSkipsRows0To4();
    MPDFrameSkipsRows5To7();
    SelectsNothing(FdBranches, "MPDFrame");
  }

  /** The far-detector factory returns nullptr for a "MPDFrame" link. */
  lemma MPDFrameSelectsNothing()
    ensures FdCreateReadout(["MPDFrame"]).model == None
  {
    MPDFrameRejected();
  }

  /** No pattern of rows 0 to 4 of FdBranches occurs in "TDEAMCFrame". */
  lemma TDEAMCFrameSkipsRows0To4()
    ensures forall j :: 0 <= j < 5 ==> !Contains("TDEAMCFrame", FdBranches[j].0)
  {
    var tag := "TDEAMCFrame";
    forall j | 0 <= j < 5 ensures !Contains(tag, FdBranches[j].0) {
      if j == 0 { TDEAMCFrameLacksWIBFrame(); }
      else if j == 1 { TDEAMCFrameLacksWIB2Frame(); }
      else if j == 2 { TDEAMCFrameLacksWIBEthFrame(); }
      else if j == 3 { TDEAMCFrameLacksPDSFrame(); }
      else { TDEAMCFrameLacksPDSStreamFrame(); }
    }
  }

  /** No pattern of rows 5 to 7 of FdBranches occurs in "TDEAMCFrame". */
  lemma TDEAMCFrameSkipsRows5To7()
    ensures forall j :: 5 <= j < 8 ==> !Contains("TDEAMCFrame", FdBranches[j].0)
  {
    var tag := "TDEAMCFrame";
    forall j | 5 <= j < 8 ensures !Contains(tag, FdBranches[j].0) {
      if j == 5 { TDEAMCFrameLacksSSPFrame(); }
      else if j == 6 { TDEAMCFrameLacksTDEFrame(); }
      else { TDEAMCFrameLacksTriggerPrimitive(); }
    }
  }

  /** No pattern of the chain occurs in "TDEAMCFrame". */
  lemma TDEAMCFrameRejected()
    ensures Select(FdBranches, "TDEAMCFrame") == None
  {
    TDEAMCFrameSkipsRows0To4();
    TDEAMCFrameSkipsRows5To7();
    SelectsNothing(FdBranches, "TDEAMCFrame");
  }

  /** The far-detector factory returns nullptr for a "TDEAMCFrame" link. */
  lemma TDEAMCFrameSelectsNothing()
    ensures FdCreateReadout(["TDEAMCFrame"]).model == None
  {
    TDEAMCFrameRejected();
  }

  /** No pattern of rows 0 to 4 of FdBranches occurs in "FWTriggerPrimitive". */
  lemma FWTriggerPrimitiveSkipsRows0To4()
    ensures forall j :: 0 <= j < 5 ==> !Contains("FWTriggerPrimitive", FdBranches[j].0)
  {
    var tag := "FWTriggerPrimitive";
    forall j | 0 <= j < 5 ensures !Contains(tag, FdBranches[j].0) {
      if j == 0 { FWTriggerPrimitiveLacksWIBFrame(); }
      else if j == 1 { FWTriggerPrimitiveLacksWIB2Frame(); }
      else if j == 2 { FWTriggerPrimitiveLacksWIBEthFrame(); }
      else if j == 3 { FWTriggerPrimitiveLacksPDSFrame(); }
      else { FWTriggerPrimitiveLacksPDSStreamFrame(); }
    }
  }

  /** No pattern of rows 5 to 6 of FdBranches occurs in "FWTriggerPrimitive". */
  lemma FWTriggerPrimitiveSkipsRows5To6()
    ensures forall j :: 5 <= j < 7 ==> !Contains("FWTriggerPrimitive", FdBranches[j].0)
  {
    var tag := "FWTriggerPrimitive";
    forall j | 5 <= j < 7 ensures !Contains(tag, FdBranches[j].0) {
      if j == 5 { FWTriggerPrimitiveLacksSSPFrame(); }
      else { FWTriggerPrimitiveLacksTDEFrame(); }
    }
  }

  /** "FWTriggerPrimitive" is taken by the "TriggerPrimitive" branch: no earlier pattern occurs in it. */
  lemma FWTriggerPrimitiveChosen()
    ensures Select(FdBranches, "FWTriggerPrimitive") == Some(SwTriggerPrimitive)
  {
    var tag := "FWTriggerPrimitive";
    FWTriggerPrimitiveSkipsRows0To4();
    FWTriggerPrimitiveSkipsRows5To6();
    var p := "TriggerPrimitive";
    assert tag[2..2 + |p|] == p;
    ContainsAt(tag, p, 2);
    SelectsRow(FdBranches, tag, 7);
  }

  /** The far-detector factory builds the SwTriggerPrimitive model for a "FWTriggerPrimitive" link and calls its init once. */
  lemma FWTriggerPrimitiveSelectsSwTriggerPrimitive()
    ensures FdCreateReadout(["FWTriggerPrimitive"]).model == Some(Initialized(Created(SwTriggerPrimitive)))
  {
    FWTriggerPrimitiveChosen();
  }
}
