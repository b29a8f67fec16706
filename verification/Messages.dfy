/** Domain messages exchanged between ports and delivered by infrastructure. */
module Messages {
  import opened Base
  import opened Clock
  import opened Dataset
  import opened Foreign
  import opened Time

  datatype TimeScale = Ptp | Arb

  datatype EventMessage =
    | DelayReq(seqId: uint16)
    | OneStepSync(seqId: uint16, logInterval: int8, origin: TimeStamp)
    | TwoStepSync(seqId: uint16, logInterval: int8)

  datatype GeneralMessage =
    | Announce(seqId: uint16, logInterval: int8, ds: ClockDS, timeScale: TimeScale)
    | FollowUp(seqId: uint16, logInterval: int8, origin: TimeStamp)
    | DelayResp(seqId: uint16, logInterval: int8, received: TimeStamp, requester: PortIdentity)

  /** The inputs of one BMCA evaluation, broadcast to all ports of a clock. */
  datatype DecisionInputs = DecisionInputs(d0: ClockDS, eBest: Snapshot)

  datatype SystemMessage =
    | AnnounceSendTimeout
    | DelayRequestTimeout
    | SyncTimeout
    | Timestamp(event: EventMessage, egress: TimeStamp)
    | Initialized
    | FaultCleared
    | AnnounceReceiptTimeout
    | QualificationTimeout
    | StateDecisionEvent(inputs: DecisionInputs)

  /** `SequenceId::next`: 16-bit wrap-around. */
  function NextSeq(s: uint16): uint16 {
    (s + 1) % 0x1_0000
  }
}
