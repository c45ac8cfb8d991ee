/**
 * `ndReadoutCreator::create_readout`: the near-detector readout factory, a
 * two-branch chain testing "PACMANFrame" before "MPDFrame".
 */
module NdReadoutFactory {
  import opened Wrappers
  import opened Substring
  import opened Dispatch
  import opened Pipelines
  import opened Readouts
  import opened TypeStrings

  /** The branches in the order the if-chain tests them. */
  const NdBranches: seq<(string, Readout)> := [
    ("PACMANFrame", NdPacman),
    ("MPDFrame", NdMpd)
  ]

  /**
   * `create_readout(args, run_marker)` given the data types reported for
   * `raw_input`; a set whose size is not one is only reported.
   */
  function NdCreateReadout(datatypes: seq<string>): (c: Creation<Pipeline<Readout>>)
    requires |datatypes| >= 1
    ensures c.sizeReported <==> |datatypes| != 1
    ensures c.model.Some? <==> AnyMatch(NdBranches, datatypes[0])
    ensures c.model.Some? ==> exists i :: Wins(NdBranches, datatypes[0], i) && c.model.value.impl == NdBranches[i].1
    ensures c.model.Some? ==> c.model.value == Initialized(Created(c.model.value.impl))
  {
    Create(NdBranches, datatypes)
  }

  /**
   * The whole decision for any tag: PACMAN when "PACMANFrame" occurs (even
   * alongside "MPDFrame"), MPD when only "MPDFrame" occurs, nullptr otherwise.
   */
  lemma NdDecision(datatypes: seq<string>)
    requires |datatypes| >= 1
    ensures Contains(datatypes[0], "PACMANFrame") ==>
      NdCreateReadout(datatypes).model == Some(Initialized(Created(NdPacman)))
    ensures !Contains(datatypes[0], "PACMANFrame") && Contains(datatypes[0], "MPDFrame") ==>
      NdCreateReadout(datatypes).model == Some(Initialized(Created(NdMpd)))
    ensures !Contains(datatypes[0], "PACMANFrame") && !Contains(datatypes[0], "MPDFrame") ==>
      NdCreateReadout(datatypes).model == None
  {
    var tag := datatypes[0];
    if Contains(tag, "PACMANFrame") {
      SelectsRow(NdBranches, tag, 0);
    } else if Contains(tag, "MPDFrame") {
      SelectsRow(NdBranches, tag, 1);
    } else {
      SelectsNothing(NdBranches, tag);
    }
  }

  /** "PACMANFrame" is taken by the "PACMANFrame" branch: no earlier pattern occurs in it. */
  lemma PACMANFrameChosen()
    ensures Select(NdBranches, "PACMANFrame") == Some(NdPacman)
  {
    var tag := "PACMANFrame";
    ContainsSelf(tag);
    SelectsRow(NdBranches, tag, 0);
  }

  /** The near-detector factory builds the NdPacman model for a "PACMANFrame" link and calls its init once. */
  lemma PACMANFrameSelectsNdPacman()
    ensures NdCreateReadout(["PACMANFrame"]).model == Some(Initialized(Created(NdPacman)))
  {
    PACMANFrameChosen();
  }

  /** No pattern of row 0 of NdBranches occurs in "MPDFrame". */
  lemma MPDFrameSkipsRow0()
    ensures forall j :: 0 <= j < 1 ==> !Contains("MPDFrame", NdBranches[j].0)
  {
    var tag := "MPDFrame";
    forall j | 0 <= j < 1 ensures !Contains(tag, NdBranches[j].0) {
      MPDFrameLacksPACMANFrame();
    }
  }

  /** "MPDFrame" is taken by the "MPDFrame" branch: no earlier pattern occurs in it. */
  lemma MPDFrameChosen()
    ensures Select(NdBranches, "MPDFrame") == Some(NdMpd)
  {
    var tag := "MPDFrame";
    MPDFrameSkipsRow0();
    ContainsSelf(tag);
    SelectsRow(NdBranches, tag, 1);
  }

  /** The near-detector factory builds the NdMpd model for a "MPDFrame" link and calls its init once. */
  lemma MPDFrameSelectsNdMpd()
    ensures NdCreateReadout(["MPDFrame"]).model == Some(Initialized(Created(NdMpd)))
  {
    MPDFrameChosen();
  }

  /** No pattern of rows 0 to 1 of NdBranches occurs in "WIBFrame". */
  lemma WIBFrameSkipsRows0To1()
    ensures forall j :: 0 <= j < 2 ==> !Contains("WIBFrame", NdBranches[j].0)
  {
    var tag := "WIBFrame";
    forall j | 0 <= j < 2 ensures !Contains(tag, NdBranches[j].0) {
      if j == 0 { WIBFrameLacksPACMANFrame(); }
      else { WIBFrameLacksMPDFrame(); }
    }
  }

  /** No pattern of the chain occurs in "WIBFrame". */
  lemma WIBFrameRejected()
    ensures Select(NdBranches, "WIBFrame") == None
  {
    WIBFrameSkipsRows0To1();
    SelectsNothing(NdBranches, "WIBFrame");
  }

  /** The near-detector factory returns nullptr for a "WIBFrame" link. */
  lemma WIBFrameSelectsNothing()
    ensures NdCreateReadout(["WIBFrame"]).model == None
  {
    WIBFrameRejected();
  }
}
