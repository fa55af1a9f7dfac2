/** The lifecycle vocabulary of one acquisition session. */
module Sessions {

  datatype FailureReason =
    | InvalidTreePlan | InvalidPacketData | ReadFailure | WriteFailure | DurabilityFenceFailed
    | NoUsablePeers | AcquisitionTimeout | NodeStoreFull

  datatype CancelReason =
    | Replaced | StoreRotated | Shutdown | LclInstalled | Superseded | Explicit | IdleExpired

  datatype SessionPhase =
    | Active
    | Dormant
    | Persisting
    | DurablePending
    | Complete
    | Failed(failure: FailureReason)
    | Cancelled(cause: CancelReason)
  {
    predicate IsTerminal() {
      Complete? || Failed? || Cancelled?
    }
  }
}
