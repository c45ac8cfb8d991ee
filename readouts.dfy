/**
 * The ReadoutModel specialisations the readout factories can build, named
 * after the type adapter each is instantiated with.
 */
module Readouts {

  datatype Readout =
    | ProtoWib            // ProtoWIBSuperChunkTypeAdapter, zero-copy recording, fixed-rate queue
    | DuneWib             // DUNEWIBSuperChunkTypeAdapter, fixed-rate queue
    | DuneWibEth          // DUNEWIBEthTypeAdapter, fixed-rate queue
    | Daphne              // DAPHNESuperChunkTypeAdapter, skip-list latency buffer
    | DaphneStream        // DAPHNEStreamSuperChunkTypeAdapter, binary-search queue
    | Ssp                 // SSPFrameTypeAdapter, binary-search queue
    | TdeAmc              // TDEAMCFrameTypeAdapter, fixed-rate queue
    | Tde                 // TDEFrameTypeAdapter, skip-list latency buffer
    | SwTriggerPrimitive  // TriggerPrimitiveTypeAdapter, software TPG processor
    | FwTriggerPrimitive  // DUNEWIBFirmwareTriggerPrimitiveSuperChunkTypeAdapter, firmware TPG processor
    | PacmanMessage       // PACMAN_MESSAGE_STRUCT
    | NdPacman            // NDReadoutPACMANTypeAdapter
    | NdMpd               // NDReadoutMPDTypeAdapter
}
