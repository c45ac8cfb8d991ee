/**
 * `createReadout`: picks the ReadoutModel specialisation for a link handler
 * from the data type of its `raw_input` connection.
 */
module ReadoutFactory {
  import opened Wrappers
  import opened Substring
  import opened Dispatch
  import opened Pipelines
  import opened Readouts
  import opened TypeStrings

  /** The branches in the order the if-chain tests them. */
  const Branches: seq<(string, Readout)> := [
    ("WIBFrame", ProtoWib),
    ("WIB2Frame", DuneWib),
    ("WIBEthFrame", DuneWibEth),
    ("PDSFrame", Daphne),
    ("PDSStreamFrame", DaphneStream),
    ("SSPFrame", Ssp),
    ("TDEAMCFrame", TdeAmc),
    ("TriggerPrimitive", SwTriggerPrimitive),
    ("FWTriggerPrimitive", FwTriggerPrimitive),
    ("PACMANFrame", PacmanMessage)
  ]

  /**
   * `createReadout(args, run_marker)` given the data types the I/O manager
   * reports for `raw_input`. A set whose size is not one is only reported;
   * the first element is used.
   */
  function CreateReadout(datatypes: seq<string>): (c: Creation<Pipeline<Readout>>)
    requires |datatypes| >= 1
    ensures c.sizeReported <==> |datatypes| != 1
    ensures c.model.Some? <==> AnyMatch(Branches, datatypes[0])
    ensures c.model.Some? ==> exists i :: Wins(Branches, datatypes[0], i) && c.model.value.impl == Branches[i].1
    ensures c.model.Some? ==> c.model.value == Initialized(Created(c.model.value.impl))
  {
    Create(Branches, datatypes)
  }

  /** "TriggerPrimitive" occurs inside "FWTriggerPrimitive", at index 2. */
  lemma TriggerPrimitiveInsideFw()
    ensures Contains("FWTriggerPrimitive", "TriggerPrimitive")
  {
    var s, p := "FWTriggerPrimitive", "TriggerPrimitive";
    assert s[2..2 + |p|] == p;
    ContainsAt(s, p, 2);
  }

  /** Row 8 is the only row building the FW-TPG model. */
  lemma OnlyRow8BuildsFw(i: int)
    requires 0 <= i < |Branches| && Branches[i].1 == FwTriggerPrimitive
    ensures i == 8
  {
  }

  /**
   * The FW-TPG branch is dead code: a tag containing "FWTriggerPrimitive"
   * also contains "TriggerPrimitive", which is tested first, so whatever the
   * data type the chain never takes the FW-TPG branch and never builds its model.
   */
  lemma FwTriggerPrimitiveUnreachable(datatypes: seq<string>)
    requires |datatypes| >= 1
    ensures FirstMatch(Branches, datatypes[0]) != Some(8)
    ensures CreateReadout(datatypes).model.Some? ==> CreateReadout(datatypes).model.value.impl != FwTriggerPrimitive
  {
    TriggerPrimitiveInsideFw();
    Shadowed(Branches, 7, 8, datatypes[0]);
    var c := CreateReadout(datatypes);
    if c.model.Some? && c.model.value.impl == FwTriggerPrimitive {
      var i :| Wins(Branches, datatypes[0], i) && c.model.value.impl == Branches[i].1;
      FirstMatchIsWinner(Branches, datatypes[0], i);
      OnlyRow8BuildsFw(i);
    }
  }

  /**
   * The chain as evidently intended: the FW-TPG pattern tested before the
   * SW-TPG pattern it contains, every other row unchanged.
   */
  const IntendedBranches: seq<(string, Readout)> := [
    ("WIBFrame", ProtoWib),
    ("WIB2Frame", DuneWib),
    ("WIBEthFrame", DuneWibEth),
    ("PDSFrame", Daphne),
    ("PDSStreamFrame", DaphneStream),
    ("SSPFrame", Ssp),
    ("TDEAMCFrame", TdeAmc),
    ("FWTriggerPrimitive", FwTriggerPrimitive),
    ("TriggerPrimitive", SwTriggerPrimitive),
    ("PACMANFrame", PacmanMessage)
  ]

  /** `createReadout` over the intended chain. */
  function CreateReadoutIntended(datatypes: seq<string>): (c: Creation<Pipeline<Readout>>)
    requires |datatypes| >= 1
    ensures c.sizeReported <==> |datatypes| != 1
    ensures c.model.Some? <==> AnyMatch(IntendedBranches, datatypes[0])
    ensures c.model.Some? ==> exists i :: Wins(IntendedBranches, datatypes[0], i) && c.model.value.impl == IntendedBranches[i].1
    ensures c.model.Some? ==> c.model.value == Initialized(Created(c.model.value.impl))
  {
    Create(IntendedBranches, datatypes)
  }

  /** Both chains accept exactly the same tags: only the choice between the two TPG models changes. */
  lemma IntendedAcceptsSameTags(tag: string)
    ensures AnyMatch(IntendedBranches, tag) <==> AnyMatch(Branches, tag)
  {
    if AnyMatch(Branches, tag) {
      var i :| 0 <= i < |Branches| && Contains(tag, Branches[i].0);
      var k := if i == 7 then 8 else if i == 8 then 7 else i;
      assert IntendedBranches[k].0 == Branches[i].0;
    }
    if AnyMatch(IntendedBranches, tag) {
      var i :| 0 <= i < |IntendedBranches| && Contains(tag, IntendedBranches[i].0);
      var k := if i == 7 then 8 else if i == 8 then 7 else i;
      assert Branches[k].0 == IntendedBranches[i].0;
    }
  }

  /** "WIBFrame" is taken by the "WIBFrame" branch: no earlier pattern occurs in it. */
  lemma WIBFrameChosen()
    ensures Select(Branches, "WIBFrame") == Some(ProtoWib)
  {
    var tag := "WIBFrame";
    ContainsSelf(tag);
    SelectsRow(Branches, tag, 0);
  }

  /** createReadout on a "WIBFrame" link builds the ProtoWib model and calls its init once. */
  lemma WIBFrameSelectsProtoWib()
    ensures CreateReadout(["WIBFrame"]).model == Some(Initialized(Created(ProtoWib)))
  {
    WIBFrameChosen();
  }

  /** No pattern of row 0 of Branches occurs in "WIB2Frame". */
  lemma WIB2FrameSkipsRow0()
    ensures forall j :: 0 <= j < 1 ==> !Contains("WIB2Frame", Branches[j].0)
  {
    var tag := "WIB2Frame";
    forall j | 0 <= j < 1 ensures !Contains(tag, Branches[j].0) {
      WIB2FrameLacksWIBFrame();
    }
  }

  /** "WIB2Frame" is taken by the "WIB2Frame" branch: no earlier pattern occurs in it. */
  lemma WIB2FrameChosen()
    ensures Select(Branches, "WIB2Frame") == Some(DuneWib)
  {
    var tag := "WIB2Frame";
    WIB2FrameSkipsRow0();
    ContainsSelf(tag);
    SelectsRow(Branches, tag, 1);
  }

  /** createReadout on a "WIB2Frame" link builds the DuneWib model and calls its init once. */
  lemma WIB2FrameSelectsDuneWib()
    ensures CreateReadout(["WIB2Frame"]).model == Some(Initialized(Created(DuneWib)))
  {
    WIB2FrameChosen();
  }

  /** No pattern of rows 0 to 1 of Branches occurs in "WIBEthFrame". */
  lemma WIBEthFrameSkipsRows0To1()
    ensures forall j :: 0 <= j < 2 ==> !Contains("WIBEthFrame", Branches[j].0)
  {
    var tag := "WIBEthFrame";
    forall j | 0 <= j < 2 ensures !Contains(tag, Branches[j].0) {
      if j == 0 { WIBEthFrameLacksWIBFrame(); }
      else { WIBEthFrameLacksWIB2Frame(); }
    }
  }

  /** "WIBEthFrame" is taken by the "WIBEthFrame" branch: no earlier pattern occurs in it. */
  lemma WIBEthFrameChosen()
    ensures Select(Branches, "WIBEthFrame") == Some(DuneWibEth)
  {
    var tag := "WIBEthFrame";
    WIBEthFrameSkipsRows0To1();
    ContainsSelf(tag);
    SelectsRow(Branches, tag, 2);
  }

  /** createReadout on a "WIBEthFrame" link builds the DuneWibEth model and calls its init once. */
  lemma WIBEthFrameSelectsDuneWibEth()
    ensures CreateReadout(["WIBEthFrame"]).model == Some(Initialized(Created(DuneWibEth)))
  {
    WIBEthFrameChosen();
  }

  /** No pattern of rows 0 to 2 of Branches occurs in "PDSFrame". */
  lemma PDSFrameSkipsRows0To2()
    ensures forall j :: 0 <= j < 3 ==> !Contains("PDSFrame", Branches[j].0)
  {
    var tag := "PDSFrame";
    forall j | 0 <= j < 3 ensures !Contains(tag, Branches[j].0) {
      if j == 0 { PDSFrameLacksWIBFrame(); }
      else if j == 1 { PDSFrameLacksWIB2Frame(); }
      else { PDSFrameLacksWIBEthFrame(); }
    }
  }

  /** "PDSFrame" is taken by the "PDSFrame" branch: no earlier pattern occurs in it. */
  lemma PDSFrameChosen()
    ensures Select(Branches, "PDSFrame") == Some(Daphne)
  {
    var tag := "PDSFrame";
    PDSFrameSkipsRows0To2();
    ContainsSelf(tag);
    SelectsRow(Branches, tag, 3);
  }

  /** createReadout on a "PDSFrame" link builds the Daphne model and calls its init once. */
  lemma PDSFrameSelectsDaphne()
    ensures CreateReadout(["PDSFrame"]).model == Some(Initialized(Created(Daphne)))
  {
    PDSFrameChosen();
  }

  /** No pattern of rows 0 to 3 of Branches occurs in "PDSStreamFrame". */
  lemma PDSStreamFrameSkipsRows0To3()
    ensures forall j :: 0 <= j < 4 ==> !Contains("PDSStreamFrame", Branches[j].0)
  {
    var tag := "PDSStreamFrame";
    forall j | 0 <= j < 4 ensures !Contains(tag, Branches[j].0) {
      if j == 0 { PDSStreamFrameLacksWIBFrame(); }
      else if j == 1 { PDSStreamFrameLacksWIB2Frame(); }
      else if j == 2 { PDSStreamFrameLacksWIBEthFrame(); }
      else { PDSStreamFrameLacksPDSFrame(); }
    }
  }

  /** "PDSStreamFrame" is taken by the "PDSStreamFrame" branch: no earlier pattern occurs in it. */
  lemma PDSStreamFrameChosen()
    ensures Select(Branches, "PDSStreamFrame") == Some(DaphneStream)
  {
    var tag := "PDSStreamFrame";
    PDSStreamFrameSkipsRows0To3();
    ContainsSelf(tag);
    SelectsRow(Branches, tag, 4);
  }

  /** createReadout on a "PDSStreamFrame" link builds the DaphneStream model and calls its init once. */
  lemma PDSStreamFrameSelectsDaphneStream()
    ensures CreateReadout(["PDSStreamFrame"]).model == Some(Initialized(Created(DaphneStream)))
  {
    PDSStreamFrameChosen();
  }

  /** No pattern of rows 0 to 4 of Branches occurs in "SSPFrame". */
  lemma SSPFrameSkipsRows0To4()
    ensures forall j :: 0 <= j < 5 ==> !Contains("SSPFrame", Branches[j].0)
  {
    var tag := "SSPFrame";
    forall j | 0 <= j < 5 ensures !Contains(tag, Branches[j].0) {
      if j == 0 { SSPFrameLacksWIBFrame(); }
      else if j == 1 { SSPFrameLacksWIB2Frame(); }
      else if j == 2 { SSPFrameLacksWIBEthFrame(); }
      else if j == 3 { SSPFrameLacksPDSFrame(); }
      else { SSPFrameLacksPDSStreamFrame(); }
    }
  }

  /** "SSPFrame" is taken by the "SSPFrame" branch: no earlier pattern occurs in it. */
  lemma SSPFrameChosen()
    ensures Select(Branches, "SSPFrame") == Some(Ssp)
  {
    var tag := "SSPFrame";
    SSPFrameSkipsRows0To4();
    ContainsSelf(tag);
    SelectsRow(Branches, tag, 5);
  }

  /** createReadout on a "SSPFrame" link builds the Ssp model and calls its init once. */
  lemma SSPFrameSelectsSsp()
    ensures CreateReadout(["SSPFrame"]).model == Some(Initialized(Created(Ssp)))
  {
    SSPFrameChosen();
  }

  /** No pattern of rows 0 to 4 of Branches occurs in "TDEAMCFrame". */
  lemma TDEAMCFrameSkipsRows0To4()
    ensures forall j :: 0 <= j < 5 ==> !Contains("TDEAMCFrame", Branches[j].0)
  {
    var tag := "TDEAMCFrame";
    forall j | 0 <= j < 5 ensures !Contains(tag, Branches[j].0) {
      if j == 0 { TDEAMCFrameLacksWIBFrame(); }
      else if j == 1 { TDEAMCFrameLacksWIB2Frame(); }
      else if j == 2 { TDEAMCFrameLacksWIBEthFrame(); }
      else if j == 3 { TDEAMCFrameLacksPDSFrame(); }
      else { TDEAMCFrameLacksPDSStreamFrame(); }
    }
  }

  /** No pattern of row 5 of Branches occurs in "TDEAMCFrame". */
  lemma TDEAMCFrameSkipsRow5()
    ensures forall j :: 5 <= j < 6 ==> !Contains("TDEAMCFrame", Branches[j].0)
  {
    var tag := "TDEAMCFrame";
    forall j | 5 <= j < 6 ensures !Contains(tag, Branches[j].0) {
      TDEAMCFrameLacksSSPFrame();
    }
  }

  /** "TDEAMCFrame" is taken by the "TDEAMCFrame" branch: no earlier pattern occurs in it. */
  lemma TDEAMCFrameChosen()
    ensures Select(Branches, "TDEAMCFrame") == Some(TdeAmc)
  {
    var tag := "TDEAMCFrame";
    TDEAMCFrameSkipsRows0To4();
    TDEAMCFrameSkipsRow5();
    ContainsSelf(tag);
    SelectsRow(Branches, tag, 6);
  }

  /** createReadout on a "TDEAMCFrame" link builds the TdeAmc model and calls its init once. */
  lemma TDEAMCFrameSelectsTdeAmc()
    ensures CreateReadout(["TDEAMCFrame"]).model == Some(Initialized(Created(TdeAmc)))
  {
    TDEAMCFrameChosen();
  }

  /** No pattern of rows 0 to 4 of Branches occurs in "TriggerPrimitive". */
  lemma TriggerPrimitiveSkipsRows0To4()
    ensures forall j :: 0 <= j < 5 ==> !Contains("TriggerPrimitive", Branches[j].0)
  {
    var tag := "TriggerPrimitive";
    forall j | 0 <= j < 5 ensures !Contains(tag, Branches[j].0) {
      if j == 0 { TriggerPrimitiveLacksWIBFrame(); }
      else if j == 1 { TriggerPrimitiveLacksWIB2Frame(); }
      else if j == 2 { TriggerPrimitiveLacksWIBEthFrame(); }
      else if j == 3 { TriggerPrimitiveLacksPDSFrame(); }
      else { TriggerPrimitiveLacksPDSStreamFrame(); }
    }
  }

  /** No pattern of rows 5 to 6 of Branches occurs in "TriggerPrimitive". */
  lemma TriggerPrimitiveSkipsRows5To6()
    ensures forall j :: 5 <= j < 7 ==> !Contains("TriggerPrimitive", Branches[j].0)
  {
    var tag := "TriggerPrimitive";
    forall j | 5 <= j < 7 ensures !Contains(tag, Branches[j].0) {
      if j == 5 { TriggerPrimitiveLacksSSPFrame(); }
      else { TriggerPrimitiveLacksTDEAMCFrame(); }
    }
  }

  /** "TriggerPrimitive" is taken by the "TriggerPrimitive" branch: no earlier pattern occurs in it. */
  lemma TriggerPrimitiveChosen()
    ensures Select(Branches, "TriggerPrimitive") == Some(SwTriggerPrimitive)
  {
    var tag := "TriggerPrimitive";
    TriggerPrimitiveSkipsRows0To4();
    TriggerPrimitiveSkipsRows5To6();
    ContainsSelf(tag);
    SelectsRow(Branches, tag, 7);
  }

  /** createReadout on a "TriggerPrimitive" link builds the SwTriggerPrimitive model and calls its init once. */
  lemma TriggerPrimitiveSelectsSwTriggerPrimitive()
    ensures CreateReadout(["TriggerPrimitive"]).model == Some(Initialized(Created(SwTriggerPrimitive)))
  {
    TriggerPrimitiveChosen();
  }

  /** No pattern of rows 0 to 4 of Branches occurs in "FWTriggerPrimitive". */
  lemma FWTriggerPrimitiveSkipsRows0To4()
    ensures forall j :: 0 <= j < 5 ==> !Contains("FWTriggerPrimitive", Branches[j].0)
  {
    var tag := "FWTriggerPrimitive";
    forall j | 0 <= j < 5 ensures !Contains(tag, Branches[j].0) {
      if j == 0 { FWTriggerPrimitiveLacksWIBFrame(); }
      else if j == 1 { FWTriggerPrimitiveLacksWIB2Frame(); }
      else if j == 2 { FWTriggerPrimitiveLacksWIBEthFrame(); }
      else if j == 3 { FWTriggerPrimitiveLacksPDSFrame(); }
      else { FWTriggerPrimitiveLacksPDSStreamFrame(); }
    }
  }

  /** No pattern of rows 5 to 6 of Branches occurs in "FWTriggerPrimitive". */
  lemma FWTriggerPrimitiveSkipsRows5To6()
    ensures forall j :: 5 <= j < 7 ==> !Contains("FWTriggerPrimitive", Branches[j].0)
  {
    var tag := "FWTriggerPrimitive";
    forall j | 5 <= j < 7 ensures !Contains(tag, Branches[j].0) {
      if j == 5 { FWTriggerPrimitiveLacksSSPFrame(); }
      else { FWTriggerPrimitiveLacksTDEAMCFrame(); }
    }
  }

  /** "FWTriggerPrimitive" is taken by the "TriggerPrimitive" branch: no earlier pattern occurs in it. */
  lemma FWTriggerPrimitiveChosen()
    ensures Select(Branches, "FWTriggerPrimitive") == Some(SwTriggerPrimitive)
  {
    var tag := "FWTriggerPrimitive";
    FWTriggerPrimitiveSkipsRows0To4();
    FWTriggerPrimitiveSkipsRows5To6();
    var p := "TriggerPrimitive";
    assert tag[2..2 + |p|] == p;
    ContainsAt(tag, p, 2);
    SelectsRow(Branches, tag, 7);
  }

  /** createReadout on a "FWTriggerPrimitive" link builds the SwTriggerPrimitive model and calls its init once. */
  lemma FWTriggerPrimitiveSelectsSwTriggerPrimitive()
    ensures CreateReadout(["FWTriggerPrimitive"]).model == Some(Initialized(Created(SwTriggerPrimitive)))
  {
    FWTriggerPrimitiveChosen();
  }

  /** No pattern of rows 0 to 4 of Branches occurs in "PACMANFrame". */
  lemma PACMANFrameSkipsRows0To4()
    ensures forall j :: 0 <= j < 5 ==> !Contains("PACMANFrame", Branches[j].0)
  {
    var tag := "PACMANFrame";
    forall j | 0 <= j < 5 ensures !Contains(tag, Branches[j].0) {
      if j == 0 { PACMANFrameLacksWIBFrame(); }
      else if j == 1 { PACMANFrameLacksWIB2Frame(); }
      else if j == 2 { PACMANFrameLacksWIBEthFrame(); }
      else if j == 3 { PACMANFrameLacksPDSFrame(); }
      else { PACMANFrameLacksPDSStreamFrame(); }
    }
  }

  /** No pattern of rows 5 to 8 of Branches occurs in "PACMANFrame". */
  lemma PACMANFrameSkipsRows5To8()
    ensures forall j :: 5 <= j < 9 ==> !Contains("PACMANFrame", Branches[j].0)
  {
    var tag := "PACMANFrame";
    forall j | 5 <= j < 9 ensures !Contains(tag, Branches[j].0) {
      if j == 5 { PACMANFrameLacksSSPFrame(); }
      else if j == 6 { PACMANFrameLacksTDEAMCFrame(); }
      else if j == 7 { PACMANFrameLacksTriggerPrimitive(); }
      else { PACMANFrameLacksFWTriggerPrimitive(); }
    }
  }

  /** "PACMANFrame" is taken by the "PACMANFrame" branch: no earlier pattern occurs in it. */
  lemma PACMANFrameChosen()
    ensures Select(Branches, "PACMANFrame") == Some(PacmanMessage)
  {
    var tag := "PACMANFrame";
    PACMANFrameSkipsRows0To4();
    PACMANFrameSkipsRows5To8();
    ContainsSelf(tag);
    SelectsRow(Branches, tag, 9);
  }

  /** createReadout on a "PACMANFrame" link builds the PacmanMessage model and calls its init once. */
  lemma PACMANFrameSelectsPacmanMessage()
    ensures CreateReadout(["PACMANFrame"]).model == Some(Initialized(Created(PacmanMessage)))
  {
    PACMANFrameChosen();
  }

  /** No pattern of rows 0 to 4 of Branches occurs in "TDEFrame". */
  lemma TDEFrameSkipsRows0To4()
    ensures forall j :: 0 <= j < 5 ==> !Contains("TDEFrame", Branches[j].0)
  {
    var tag := "TDEFrame";
    forall j | 0 <= j < 5 ensures !Contains(tag, Branches[j].0) {
      if j == 0 { TDEFrameLacksWIBFrame(); }
      else if j == 1 { TDEFrameLacksWIB2Frame(); }
      else if j == 2 { TDEFrameLacksWIBEthFrame(); }
      else if j == 3 { TDEFrameLacksPDSFrame(); }
      else { TDEFrameLacksPDSStreamFrame(); }
    }
  }

  /** No pattern of rows 5 to 9 of Branches occurs in "TDEFrame". */
  lemma TDEFrameSkipsRows5To9()
    ensures forall j :: 5 <= j < 10 ==> !Contains("TDEFrame", Branches[j].0)
  {
    var tag := "TDEFrame";
    forall j | 5 <= j < 10 ensures !Contains(tag, Branches[j].0) {
      if j == 5 { TDEFrameLacksSSPFrame(); }
      else if j == 6 { TDEFrameLacksTDEAMCFrame(); }
      else if j == 7 { TDEFrameLacksTriggerPrimitive(); }
      else if j == 8 { TDEFrameLacksFWTriggerPrimitive(); }
      else { TDEFrameLacksPACMANFrame(); }
    }
  }

  /** No pattern of the chain occurs in "TDEFrame". */
  lemma TDEFrameRejected()
    ensures Select(Branches, "TDEFrame") == None
  {
    TDEFrameSkipsRows0To4();
    TDEFrameSkipsRows5To9();
    SelectsNothing(Branches, "TDEFrame");
  }

  /** createReadout on a "TDEFrame" link returns nullptr. */
  lemma TDEFrameSelectsNothing()
    ensures CreateReadout(["TDEFrame"]).model == None
  {
    TDEFrameRejected();
  }

  /** No pattern of rows 0 to 4 of Branches occurs in "MPDFrame". */
  lemma MPDFrameSkipsRows0To4()
    ensures forall j :: 0 <= j < 5 ==> !Contains("MPDFrame", Branches[j].0)
  {
    var tag := "MPDFrame";
    forall j | 0 <= j < 5 ensures !Contains(tag, Branches[j].0) {
      if j == 0 { MPDFrameLacksWIBFrame(); }
      else if j == 1 { MPDFrameLacksWIB2Frame(); }
      else if j == 2 { MPDFrameLacksWIBEthFrame(); }
      else if j == 3 { MPDFrameLacksPDSFrame(); }
      else { MPDFrameLacksPDSStreamFrame(); }
    }
  }

  /** No pattern of rows 5 to 9 of Branches occurs in "MPDFrame". */
  lemma MPDFrameSkipsRows5To9()
    ensures forall j :: 5 <= j < 10 ==> !Contains("MPDFrame", Branches[j].0)
  {
    var tag := "MPDFrame";
    forall j | 5 <= j < 10 ensures !Contains(tag, Branches[j].0) {
      if j == 5 { MPDFrameLacksSSPFrame(); }
      else if j == 6 { MPDFrameLacksTDEAMCFrame(); }
      else if j == 7 { MPDFrameLacksTriggerPrimitive(); }
      else if j == 8 { MPDFrameLacksFWTriggerPrimitive(); }
      else { MPDFrameLacksPACMANFrame(); }
    }
  }

  /** No pattern of the chain occurs in "MPDFrame". */
  lemma MPDFrameRejected()
    ensures Select(Branches, "MPDFrame") == None
  {
    MPDFrameSkipsRows0To4();
    MPDFrameSkipsRows5To9();
    SelectsNothing(Branches, "MPDFrame");
  }

  /** createReadout on a "MPDFrame" link returns nullptr. */
  lemma MPDFrameSelectsNothing()
    ensures CreateReadout(["MPDFrame"]).model == None
  {
    MPDFrameRejected();
  }

  /** No pattern of rows 0 to 4 of IntendedBranches occurs in "FWTriggerPrimitive". */
  lemma IntendedFWTriggerPrimitiveSkipsRows0To4()
    ensures forall j :: 0 <= j < 5 ==> !Contains("FWTriggerPrimitive", IntendedBranches[j].0)
  {
    var tag := "FWTriggerPrimitive";
    forall j | 0 <= j < 5 ensures !Contains(tag, IntendedBranches[j].0) {
      if j == 0 { FWTriggerPrimitiveLacksWIBFrame(); }
      else if j == 1 { FWTriggerPrimitiveLacksWIB2Frame(); }
      else if j == 2 { FWTriggerPrimitiveLacksWIBEthFrame(); }
      else if j == 3 { FWTriggerPrimitiveLacksPDSFrame(); }
      else { FWTriggerPrimitiveLacksPDSStreamFrame(); }
    }
  }

  /** No pattern of rows 5 to 6 of IntendedBranches occurs in "FWTriggerPrimitive". */
  lemma IntendedFWTriggerPrimitiveSkipsRows5To6()
    ensures forall j :: 5 <= j < 7 ==> !Contains("FWTriggerPrimitive", IntendedBranches[j].0)
  {
    var tag := "FWTriggerPrimitive";
    forall j | 5 <= j < 7 ensures !Contains(tag, IntendedBranches[j].0) {
      if j == 5 { FWTriggerPrimitiveLacksSSPFrame(); }
      else { FWTriggerPrimitiveLacksTDEAMCFrame(); }
    }
  }

  /** "FWTriggerPrimitive" is taken by the "FWTriggerPrimitive" branch: no earlier pattern occurs in it. */
  lemma IntendedFWTriggerPrimitiveChosen()
    ensures Select(IntendedBranches, "FWTriggerPrimitive") == Some(FwTriggerPrimitive)
  {
    var tag := "FWTriggerPrimitive";
    IntendedFWTriggerPrimitiveSkipsRows0To4();
    IntendedFWTriggerPrimitiveSkipsRows5To6();
    ContainsSelf(tag);
    SelectsRow(IntendedBranches, tag, 7);
  }

  /** Over the intended chain, a "FWTriggerPrimitive" link builds the FwTriggerPrimitive model. */
  lemma IntendedFWTriggerPrimitiveSelectsFwTriggerPrimitive()
    ensures CreateReadoutIntended(["FWTriggerPrimitive"]).model == Some(Initialized(Created(FwTriggerPrimitive)))
  {
    IntendedFWTriggerPrimitiveChosen();
  }

  /** No pattern of rows 0 to 4 of IntendedBranches occurs in "TriggerPrimitive". */
  lemma IntendedTriggerPrimitiveSkipsRows0To4()
    ensures forall j :: 0 <= j < 5 ==> !Contains("TriggerPrimitive", IntendedBranches[j].0)
  {
    var tag := "TriggerPrimitive";
    forall j | 0 <= j < 5 ensures !Contains(tag, IntendedBranches[j].0) {
      if j == 0 { TriggerPrimitiveLacksWIBFrame(); }
      else if j == 1 { TriggerPrimitiveLacksWIB2Frame(); }
      else if j == 2 { TriggerPrimitiveLacksWIBEthFrame(); }
      else if j == 3 { TriggerPrimitiveLacksPDSFrame(); }
      else { TriggerPrimitiveLacksPDSStreamFrame(); }
    }
  }

  /** No pattern of rows 5 to 7 of IntendedBranches occurs in "TriggerPrimitive". */
  lemma IntendedTriggerPrimitiveSkipsRows5To7()
    ensures forall j :: 5 <= j < 8 ==> !Contains("TriggerPrimitive", IntendedBranches[j].0)
  {
    var tag := "TriggerPrimitive";
    forall j | 5 <= j < 8 ensures !Contains(tag, IntendedBranches[j].0) {
      if j == 5 { TriggerPrimitiveLacksSSPFrame(); }
      else if j == 6 { TriggerPrimitiveLacksTDEAMCFrame(); }
      else { TriggerPrimitiveLacksFWTriggerPrimitive(); }
    }
  }

  /** "TriggerPrimitive" is taken by the "TriggerPrimitive" branch: no earlier pattern occurs in it. */
  lemma IntendedTriggerPrimitiveChosen()
    ensures Select(IntendedBranches, "TriggerPrimitive") == Some(SwTriggerPrimitive)
  {
    var tag := "TriggerPrimitive";
    IntendedTriggerPrimitiveSkipsRows0To4();
    IntendedTriggerPrimitiveSkipsRows5To7();
    ContainsSelf(tag);
    SelectsRow(IntendedBranches, tag, 8);
  }

  /** Over the intended chain, a "TriggerPrimitive" link builds the SwTriggerPrimitive model. */
  lemma IntendedTriggerPrimitiveSelectsSwTriggerPrimitive()
    ensures CreateReadoutIntended(["TriggerPrimitive"]).model == Some(Initialized(Created(SwTriggerPrimitive)))
  {
    IntendedTriggerPrimitiveChosen();
  }
}
