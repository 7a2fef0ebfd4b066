/** Encoded values and the block build state that passes between the two phases of production. */
module BuildState {
  import opened Outcomes
  import opened Blocks
  import opened Execution

  /** A string of base64 msgpack: empty, an encoded payload, encoded requests, or something else. */
  datatype Data = Absent | PayloadData(payload: Payload) | RequestsData(requests: Requests) | Junk(tag: nat)
  {
    function DecodePayload(): Option<Payload> {
      if PayloadData? then Some(payload) else None
    }

    /** The empty string stands for no requests. */
    function DecodeRequests(): Option<Requests> {
      if RequestsData? then Some(requests) else if Absent? then Some([]) else None
    }
  }

  datatype BuildStep = StepBuildBlock | StepFinalizeBlock

  /** state.BlockBuildState; a missing payload id is the empty string. */
  datatype BlockBuildState = BlockBuildState(
    step: BuildStep, payloadId: Option<PayloadId>, executionPayload: Data, requests: Data)

  const FRESH: BlockBuildState := BlockBuildState(StepBuildBlock, None, Absent, Absent)

  /** The text of a Redis value: empty, the JSON of a build state, or something that does not decode. */
  datatype StateText = EmptyText | StateJson(state: BlockBuildState) | Garbled(tag: nat)
}
