/** controllers/status/status.go: the bit mask the reconciler computes with, and the triple
    (registered, configured, state) that is stored in a CompassManagerMapping. */
module StatusCode {

  /** Go's `int` on a 64-bit platform. */
  type Status = bv64

  const REGISTERED: Status := 1
  const CONFIGURED: Status := 2
  const PROCESSING: Status := 4
  const FAILED: Status := 8
  const EMPTY: Status := 0

  datatype State = NoState | ReadyState | ProcessingState | FailedState | OtherState(text: string)

  datatype MappingStatus = MappingStatus(registered: bool, configured: bool, state: State)

  /** The status of a freshly created mapping: the status subresource starts out zero. */
  const ZERO_STATUS := MappingStatus(false, false, NoState)

  function StateText(status: Status): State {
    if status & FAILED != 0 then FailedState
    else if status & PROCESSING != 0 then ProcessingState
    else if status & (REGISTERED | CONFIGURED) == REGISTERED | CONFIGURED then ReadyState
    else FailedState
  }

  /** What SetCompassMappingStatus stores for a bit mask. */
  function Encode(status: Status): MappingStatus {
    MappingStatus(status & REGISTERED != 0, status & CONFIGURED != 0, StateText(status))
  }

  /** The bit mask that stands for a stored status; fixed bit by bit by its contract. */
  function Decode(status: MappingStatus): (out: Status)
    ensures out & PROCESSING != 0 <==> status.state == ProcessingState
    ensures out & FAILED != 0 <==> status.state == FailedState
    ensures out & REGISTERED != 0 <==> status.registered
    ensures out & CONFIGURED != 0 <==> status.configured
    ensures out < 16
  {
    (if status.state == ProcessingState then PROCESSING else EMPTY)
    | (if status.state == FailedState then FAILED else EMPTY)
    | (if status.registered then REGISTERED else EMPTY)
    | (if status.configured then CONFIGURED else EMPTY)
  }

  method Number(status: MappingStatus) returns (out: Status)
    ensures out == Decode(status)
  {
    out := 0;
    if status.state == ProcessingState {
      out := out | PROCESSING;
    }
    if status.state == FailedState {
      out := out | FAILED;
    }
    if status.registered {
      out := out | REGISTERED;
    }
    if status.configured {
      out := out | CONFIGURED;
    }
  }

  /** Storing a bit mask and reading it back gives the same mask exactly when the mask is one of
      the nine consistent ones: some of the four bits, never Processing together with Failed, and
      without either of them only Registered and Configured together. */
  lemma RoundTripExactly(status: Status)
    ensures Decode(Encode(status)) == status <==>
            && status < 16
            && (status & FAILED == 0 || status & PROCESSING == 0)
            && (status & (FAILED | PROCESSING) != 0 || status == REGISTERED | CONFIGURED)
  {
    assert (status & REGISTERED) | (status & CONFIGURED) | (status & PROCESSING) | (status & FAILED) == status & 15;
  }

  /** What a round trip does to any mask: the low bits survive, Failed wins over Processing, and a
      mask that is neither processing, failed nor ready comes back as failed. It never reads as
      Empty, so a status once written can not look like a new mapping, and a second round trip
      changes nothing. */
  lemma RoundTripNormalises(status: Status)
    ensures var back := Decode(Encode(status));
            && back != EMPTY
            && back & (REGISTERED | CONFIGURED) == status & (REGISTERED | CONFIGURED)
            && (back & FAILED != 0 <==>
                  status & FAILED != 0 || (status & PROCESSING == 0 && status & 3 != 3))
            && (back & PROCESSING != 0 <==> status & PROCESSING != 0 && status & FAILED == 0)
            && Decode(Encode(back)) == back
  {
    var back := Decode(Encode(status));
    var once := Encode(status);
    assert once.state in {FailedState, ProcessingState, ReadyState};
    assert Encode(back) == once;
  }

  /** The five masks that the reconciler writes survive storage unchanged. */
  lemma WrittenStatusesRoundTrip(status: Status)
    requires status in {PROCESSING, FAILED, REGISTERED | PROCESSING, REGISTERED | FAILED, REGISTERED | CONFIGURED}
    ensures Decode(Encode(status)) == status
  {
    RoundTripExactly(status);
  }
}
