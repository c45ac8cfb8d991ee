/**
 * Which of the type strings the factories test for (their
 * DUNE_DAQ_TYPESTRING registrations) do not occur inside which. Most pairs
 * are told apart by a character the tag lacks; a few near misses need every
 * alignment checked.
 */
module TypeStrings {
  import opened Substring

  lemma FWTriggerPrimitiveLacksPDSFrame()
    ensures !Contains("FWTriggerPrimitive", "PDSFrame")
  {
    MissingChar("FWTriggerPrimitive", "PDSFrame", 'D');
  }

  lemma FWTriggerPrimitiveLacksPDSStreamFrame()
    ensures !Contains("FWTriggerPrimitive", "PDSStreamFrame")
  {
    MissingChar("FWTriggerPrimitive", "PDSStreamFrame", 'D');
  }

  lemma FWTriggerPrimitiveLacksSSPFrame()
    ensures !Contains("FWTriggerPrimitive", "SSPFrame")
  {
    MissingChar("FWTriggerPrimitive", "SSPFrame", 'S');
  }

  lemma FWTriggerPrimitiveLacksTDEAMCFrame()
    ensures !Contains("FWTriggerPrimitive", "TDEAMCFrame")
  {
    MissingChar("FWTriggerPrimitive", "TDEAMCFrame", 'D');
  }

  lemma FWTriggerPrimitiveLacksTDEFrame()
    ensures !Contains("FWTriggerPrimitive", "TDEFrame")
  {
    MissingChar("FWTriggerPrimitive", "TDEFrame", 'D');
  }

  lemma FWTriggerPrimitiveLacksWIB2Frame()
    ensures !Contains("FWTriggerPrimitive", "WIB2Frame")
  {
    MissingChar("FWTriggerPrimitive", "WIB2Frame", 'I');
  }

  lemma FWTriggerPrimitiveLacksWIBEthFrame()
    ensures !Contains("FWTriggerPrimitive", "WIBEthFrame")
  {
    MissingChar("FWTriggerPrimitive", "WIBEthFrame", 'I');
  }

  lemma FWTriggerPrimitiveLacksWIBFrame()
    ensures !Contains("FWTriggerPrimitive", "WIBFrame")
  {
    MissingChar("FWTriggerPrimitive", "WIBFrame", 'I');
  }

  lemma MPDFrameLacksFWTriggerPrimitive()
    ensures !Contains("MPDFrame", "FWTriggerPrimitive")
  {
    MissingChar("MPDFrame", "FWTriggerPrimitive", 'W');
  }

  lemma MPDFrameLacksPACMANFrame()
    ensures !Contains("MPDFrame", "PACMANFrame")
  {
    MissingChar("MPDFrame", "PACMANFrame", 'A');
  }

  lemma MPDFrameLacksPDSFrame()
    ensures !Contains("MPDFrame", "PDSFrame")
  {
    MissingChar("MPDFrame", "PDSFrame", 'S');
  }

  lemma MPDFrameLacksPDSStreamFrame()
    ensures !Contains("MPDFrame", "PDSStreamFrame")
  {
    MissingChar("MPDFrame", "PDSStreamFrame", 'S');
  }

  lemma MPDFrameLacksSSPFrame()
    ensures !Contains("MPDFrame", "SSPFrame")
  {
    MissingChar("MPDFrame", "SSPFrame", 'S');
  }

  lemma MPDFrameLacksTDEAMCFrame()
    ensures !Contains("MPDFrame", "TDEAMCFrame")
  {
    MissingChar("MPDFrame", "TDEAMCFrame", 'T');
  }

  lemma MPDFrameLacksTDEFrame()
    ensures !Contains("MPDFrame", "TDEFrame")
  {
    MissingChar("MPDFrame", "TDEFrame", 'T');
  }

  lemma MPDFrameLacksTriggerPrimitive()
    ensures !Contains("MPDFrame", "TriggerPrimitive")
  {
    MissingChar("MPDFrame", "TriggerPrimitive", 'T');
  }

  lemma MPDFrameLacksWIB2Frame()
    ensures !Contains("MPDFrame", "WIB2Frame")
  {
    MissingChar("MPDFrame", "WIB2Frame", 'W');
  }

  lemma MPDFrameLacksWIBEthFrame()
    ensures !Contains("MPDFrame", "WIBEthFrame")
  {
    MissingChar("MPDFrame", "WIBEthFrame", 'W');
  }

  lemma MPDFrameLacksWIBFrame()
    ensures !Contains("MPDFrame", "WIBFrame")
  {
    MissingChar("MPDFrame", "WIBFrame", 'W');
  }

  lemma PACMANFrameLacksFWTriggerPrimitive()
    ensures !Contains("PACMANFrame", "FWTriggerPrimitive")
  {
    MissingChar("PACMANFrame", "FWTriggerPrimitive", 'W');
  }

  lemma PACMANFrameLacksPDSFrame()
    ensures !Contains("PACMANFrame", "PDSFrame")
  {
    MissingChar("PACMANFrame", "PDSFrame", 'D');
  }

  lemma PACMANFrameLacksPDSStreamFrame()
    ensures !Contains("PACMANFrame", "PDSStreamFrame")
  {
    MissingChar("PACMANFrame", "PDSStreamFrame", 'D');
  }

  lemma PACMANFrameLacksSSPFrame()
    ensures !Contains("PACMANFrame", "SSPFrame")
  {
    MissingChar("PACMANFrame", "SSPFrame", 'S');
  }

  lemma PACMANFrameLacksTDEAMCFrame()
    ensures !Contains("PACMANFrame", "TDEAMCFrame")
  {
    MissingChar("PACMANFrame", "TDEAMCFrame", 'T');
  }

  lemma PACMANFrameLacksTDEFrame()
    ensures !Contains("PACMANFrame", "TDEFrame")
  {
    MissingChar("PACMANFrame", "TDEFrame", 'T');
  }

  lemma PACMANFrameLacksTriggerPrimitive()
    ensures !Contains("PACMANFrame", "TriggerPrimitive")
  {
    MissingChar("PACMANFrame", "TriggerPrimitive", 'T');
  }

  lemma PACMANFrameLacksWIB2Frame()
    ensures !Contains("PACMANFrame", "WIB2Frame")
  {
    MissingChar("PACMANFrame", "WIB2Frame", 'W');
  }

  lemma PACMANFrameLacksWIBEthFrame()
    ensures !Contains("PACMANFrame", "WIBEthFrame")
  {
    MissingChar("PACMANFrame", "WIBEthFrame", 'W');
  }

  lemma PACMANFrameLacksWIBFrame()
    ensures !Contains("PACMANFrame", "WIBFrame")
  {
    MissingChar("PACMANFrame", "WIBFrame", 'W');
  }

  lemma PDSFrameLacksWIB2Frame()
    ensures !Contains("PDSFrame", "WIB2Frame")
  {
    MissingChar("PDSFrame", "WIB2Frame", 'W');
  }

  lemma PDSFrameLacksWIBEthFrame()
    ensures !Contains("PDSFrame", "WIBEthFrame")
  {
    MissingChar("PDSFrame", "WIBEthFrame", 'W');
  }

  lemma PDSFrameLacksWIBFrame()
    ensures !Contains("PDSFrame", "WIBFrame")
  {
    MissingChar("PDSFrame", "WIBFrame", 'W');
  }

  lemma PDSStreamFrameLacksMPDFrame()
    ensures !Contains("PDSStreamFrame", "MPDFrame")
  {
    MissingChar("PDSStreamFrame", "MPDFrame", 'M');
  }

  lemma PDSStreamFrameLacksPACMANFrame()
    ensures !Contains("PDSStreamFrame", "PACMANFrame")
  {
    MissingChar("PDSStreamFrame", "PACMANFrame", 'A');
  }

  /** Every character of "PDSFrame" occurs in "PDSStreamFrame", but at no alignment do they all match. */
  lemma PDSStreamFrameLacksPDSFrame()
    ensures !Contains("PDSStreamFrame", "PDSFrame")
  {
    var s, p := "PDSStreamFrame", "PDSFrame";
    forall i | 0 <= i <= |s| - |p| ensures !OccursAt(s, p, i) {
      if i == 0 {
        assert s[i..i + |p|][3] != p[3];
      } else {
        assert s[i..i + |p|][0] != p[0];
      }
    }
    NowhereInside(s, p);
  }

  lemma PDSStreamFrameLacksTDEFrame()
    ensures !Contains("PDSStreamFrame", "TDEFrame")
  {
    MissingChar("PDSStreamFrame", "TDEFrame", 'T');
  }

  lemma PDSStreamFrameLacksWIB2Frame()
    ensures !Contains("PDSStreamFrame", "WIB2Frame")
  {
    MissingChar("PDSStreamFrame", "WIB2Frame", 'W');
  }

  lemma PDSStreamFrameLacksWIBEthFrame()
    ensures !Contains("PDSStreamFrame", "WIBEthFrame")
  {
    MissingChar("PDSStreamFrame", "WIBEthFrame", 'W');
  }

  lemma PDSStreamFrameLacksWIBFrame()
    ensures !Contains("PDSStreamFrame", "WIBFrame")
  {
    MissingChar("PDSStreamFrame", "WIBFrame", 'W');
  }

  lemma SSPFrameLacksMPDFrame()
    ensures !Contains("SSPFrame", "MPDFrame")
  {
    MissingChar("SSPFrame", "MPDFrame", 'M');
  }

  lemma SSPFrameLacksPACMANFrame()
    ensures !Contains("SSPFrame", "PACMANFrame")
  {
    MissingChar("SSPFrame", "PACMANFrame", 'A');
  }

  lemma SSPFrameLacksPDSFrame()
    ensures !Contains("SSPFrame", "PDSFrame")
  {
    MissingChar("SSPFrame", "PDSFrame", 'D');
  }

  lemma SSPFrameLacksPDSStreamFrame()
    ensures !Contains("SSPFrame", "PDSStreamFrame")
  {
    MissingChar("SSPFrame", "PDSStreamFrame", 'D');
  }

  lemma SSPFrameLacksTDEFrame()
    ensures !Contains("SSPFrame", "TDEFrame")
  {
    MissingChar("SSPFrame", "TDEFrame", 'T');
  }

  lemma SSPFrameLacksWIB2Frame()
    ensures !Contains("SSPFrame", "WIB2Frame")
  {
    MissingChar("SSPFrame", "WIB2Frame", 'W');
  }

  lemma SSPFrameLacksWIBEthFrame()
    ensures !Contains("SSPFrame", "WIBEthFrame")
  {
    MissingChar("SSPFrame", "WIBEthFrame", 'W');
  }

  lemma SSPFrameLacksWIBFrame()
    ensures !Contains("SSPFrame", "WIBFrame")
  {
    MissingChar("SSPFrame", "WIBFrame", 'W');
  }

  lemma TDEAMCFrameLacksPDSFrame()
    ensures !Contains("TDEAMCFrame", "PDSFrame")
  {
    MissingChar("TDEAMCFrame", "PDSFrame", 'P');
  }

  lemma TDEAMCFrameLacksPDSStreamFrame()
    ensures !Contains("TDEAMCFrame", "PDSStreamFrame")
  {
    MissingChar("TDEAMCFrame", "PDSStreamFrame", 'P');
  }

  lemma TDEAMCFrameLacksSSPFrame()
    ensures !Contains("TDEAMCFrame", "SSPFrame")
  {
    MissingChar("TDEAMCFrame", "SSPFrame", 'S');
  }

  /** Every character of "TDEFrame" occurs in "TDEAMCFrame", but at no alignment do they all match. */
  lemma TDEAMCFrameLacksTDEFrame()
    ensures !Contains("TDEAMCFrame", "TDEFrame")
  {
    var s, p := "TDEAMCFrame", "TDEFrame";
    forall i | 0 <= i <= |s| - |p| ensures !OccursAt(s, p, i) {
      if i == 0 {
        assert s[i..i + |p|][3] != p[3];
      } else {
        assert s[i..i + |p|][0] != p[0];
      }
    }
    NowhereInside(s, p);
  }

  lemma TDEAMCFrameLacksTriggerPrimitive()
    ensures !Contains("TDEAMCFrame", "TriggerPrimitive")
  {
    MissingChar("TDEAMCFrame", "TriggerPrimitive", 'i');
  }

  lemma TDEAMCFrameLacksWIB2Frame()
    ensures !Contains("TDEAMCFrame", "WIB2Frame")
  {
    MissingChar("TDEAMCFrame", "WIB2Frame", 'W');
  }

  lemma TDEAMCFrameLacksWIBEthFrame()
    ensures !Contains("TDEAMCFrame", "WIBEthFrame")
  {
    MissingChar("TDEAMCFrame", "WIBEthFrame", 'W');
  }

  lemma TDEAMCFrameLacksWIBFrame()
    ensures !Contains("TDEAMCFrame", "WIBFrame")
  {
    MissingChar("TDEAMCFrame", "WIBFrame", 'W');
  }

  lemma TDEFrameLacksFWTriggerPrimitive()
    ensures !Contains("TDEFrame", "FWTriggerPrimitive")
  {
    MissingChar("TDEFrame", "FWTriggerPrimitive", 'W');
  }

  lemma TDEFrameLacksMPDFrame()
    ensures !Contains("TDEFrame", "MPDFrame")
  {
    MissingChar("TDEFrame", "MPDFrame", 'M');
  }

  lemma TDEFrameLacksPACMANFrame()
    ensures !Contains("TDEFrame", "PACMANFrame")
  {
    MissingChar("TDEFrame", "PACMANFrame", 'P');
  }

  lemma TDEFrameLacksPDSFrame()
    ensures !Contains("TDEFrame", "PDSFrame")
  {
    MissingChar("TDEFrame", "PDSFrame", 'P');
  }

  lemma TDEFrameLacksPDSStreamFrame()
    ensures !Contains("TDEFrame", "PDSStreamFrame")
  {
    MissingChar("TDEFrame", "PDSStreamFrame", 'P');
  }

  lemma TDEFrameLacksSSPFrame()
    ensures !Contains("TDEFrame", "SSPFrame")
  {
    MissingChar("TDEFrame", "SSPFrame", 'S');
  }

  lemma TDEFrameLacksTDEAMCFrame()
    ensures !Contains("TDEFrame", "TDEAMCFrame")
  {
    MissingChar("TDEFrame", "TDEAMCFrame", 'A');
  }

  lemma TDEFrameLacksTriggerPrimitive()
    ensures !Contains("TDEFrame", "TriggerPrimitive")
  {
    MissingChar("TDEFrame", "TriggerPrimitive", 'i');
  }

  lemma TDEFrameLacksWIB2Frame()
    ensures !Contains("TDEFrame", "WIB2Frame")
  {
    MissingChar("TDEFrame", "WIB2Frame", 'W');
  }

  lemma TDEFrameLacksWIBEthFrame()
    ensures !Contains("TDEFrame", "WIBEthFrame")
  {
    MissingChar("TDEFrame", "WIBEthFrame", 'W');
  }

  lemma TDEFrameLacksWIBFrame()
    ensures !Contains("TDEFrame", "WIBFrame")
  {
    MissingChar("TDEFrame", "WIBFrame", 'W');
  }

  lemma TriggerPrimitiveLacksFWTriggerPrimitive()
    ensures !Contains("TriggerPrimitive", "FWTriggerPrimitive")
  {
    MissingChar("TriggerPrimitive", "FWTriggerPrimitive", 'F');
  }

  lemma TriggerPrimitiveLacksMPDFrame()
    ensures !Contains("TriggerPrimitive", "MPDFrame")
  {
    MissingChar("TriggerPrimitive", "MPDFrame", 'M');
  }

  lemma TriggerPrimitiveLacksPACMANFrame()
    ensures !Contains("TriggerPrimitive", "PACMANFrame")
  {
    MissingChar("TriggerPrimitive", "PACMANFrame", 'A');
  }

  lemma TriggerPrimitiveLacksPDSFrame()
    ensures !Contains("TriggerPrimitive", "PDSFrame")
  {
    MissingChar("TriggerPrimitive", "PDSFrame", 'D');
  }

  lemma TriggerPrimitiveLacksPDSStreamFrame()
    ensures !Contains("TriggerPrimitive", "PDSStreamFrame")
  {
    MissingChar("TriggerPrimitive", "PDSStreamFrame", 'D');
  }

  lemma TriggerPrimitiveLacksSSPFrame()
    ensures !Contains("TriggerPrimitive", "SSPFrame")
  {
    MissingChar("TriggerPrimitive", "SSPFrame", 'S');
  }

  lemma TriggerPrimitiveLacksTDEAMCFrame()
    ensures !Contains("TriggerPrimitive", "TDEAMCFrame")
  {
    MissingChar("TriggerPrimitive", "TDEAMCFrame", 'D');
  }

  lemma TriggerPrimitiveLacksTDEFrame()
    ensures !Contains("TriggerPrimitive", "TDEFrame")
  {
    MissingChar("TriggerPrimitive", "TDEFrame", 'D');
  }

  lemma TriggerPrimitiveLacksWIB2Frame()
    ensures !Contains("TriggerPrimitive", "WIB2Frame")
  {
    MissingChar("TriggerPrimitive", "WIB2Frame", 'W');
  }

  lemma TriggerPrimitiveLacksWIBEthFrame()
    ensures !Contains("TriggerPrimitive", "WIBEthFrame")
  {
    MissingChar("TriggerPrimitive", "WIBEthFrame", 'W');
  }

  lemma TriggerPrimitiveLacksWIBFrame()
    ensures !Contains("TriggerPrimitive", "WIBFrame")
  {
    MissingChar("TriggerPrimitive", "WIBFrame", 'W');
  }

  lemma WIB2FrameLacksWIBEthFrame()
    ensures !Contains("WIB2Frame", "WIBEthFrame")
  {
    MissingChar("WIB2Frame", "WIBEthFrame", 'E');
  }

  /** Every character of "WIBFrame" occurs in "WIB2Frame", but at no alignment do they all match. */
  lemma WIB2FrameLacksWIBFrame()
    ensures !Contains("WIB2Frame", "WIBFrame")
  {
    var s, p := "WIB2Frame", "WIBFrame";
    forall i | 0 <= i <= |s| - |p| ensures !OccursAt(s, p, i) {
      if i == 1 {
        assert s[i..i + |p|][0] != p[0];
      } else {
        assert s[i..i + |p|][3] != p[3];
      }
    }
    NowhereInside(s, p);
  }

  lemma WIBEthFrameLacksWIB2Frame()
    ensures !Contains("WIBEthFrame", "WIB2Frame")
  {
    MissingChar("WIBEthFrame", "WIB2Frame", '2');
  }

  /** Every character of "WIBFrame" occurs in "WIBEthFrame", but at no alignment do they all match. */
  lemma WIBEthFrameLacksWIBFrame()
    ensures !Contains("WIBEthFrame", "WIBFrame")
  {
    var s, p := "WIBEthFrame", "WIBFrame";
    forall i | 0 <= i <= |s| - |p| ensures !OccursAt(s, p, i) {
      if i == 0 {
        assert s[i..i + |p|][3] != p[3];
      } else {
        assert s[i..i + |p|][0] != p[0];
      }
    }
    NowhereInside(s, p);
  }

  lemma WIBFrameLacksMPDFrame()
    ensures !Contains("WIBFrame", "MPDFrame")
  {
    MissingChar("WIBFrame", "MPDFrame", 'M');
  }

  lemma WIBFrameLacksPACMANFrame()
    ensures !Contains("WIBFrame", "PACMANFrame")
  {
    MissingChar("WIBFrame", "PACMANFrame", 'P');
  }

  lemma WIBFrameLacksWIB2Frame()
    ensures !Contains("WIBFrame", "WIB2Frame")
  {
    MissingChar("WIBFrame", "WIB2Frame", '2');
  }

  lemma WIBFrameLacksWIBEthFrame()
    ensures !Contains("WIBFrame", "WIBEthFrame")
  {
    MissingChar("WIBFrame", "WIBEthFrame", 'E');
  }
}
