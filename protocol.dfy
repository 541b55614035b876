/** Wire-level vocabulary of the Acaia scale protocol: bytes, the two frame
    sentinels, the inbound message-type and button-event selectors, and the
    values a decoded notification can carry. */
module Protocol {

  /** An unsigned byte (Rust `u8`). */
  type u8 = x: int | 0 <= x < 256

  /** The two sentinel bytes that begin every command frame. */
  const MAGIC1: u8 := 0xEF
  const MAGIC2: u8 := 0xDD

  datatype Option<T> = None | Some(value: T)

  /** Inbound message types the decoder dispatches on. */
  datatype MsgType = Weight | Heartbeat | Time | Button {
    function Value(): (v: u8)
      ensures v in {5, 7, 8, 11}
      ensures this.Weight? <==> v == 5
      ensures this.Heartbeat? <==> v == 11
      ensures this.Time? <==> v == 7
      ensures this.Button? <==> v == 8
    {
      match this
      case Weight => 5
      case Heartbeat => 11
      case Time => 7
      case Button => 8
    }
  }

  /** The four button events the scale reports, identified by a pair of bytes. */
  datatype ButtonEvent = Tare | Start | Stop | Reset {
    function Value(): (v: (u8, u8))
      ensures v.0 in {0, 8, 9, 10}
      ensures v.1 == 5 <==> (this.Tare? || this.Start?)
      ensures v.1 == 7 <==> (this.Stop? || this.Reset?)
      ensures this.Tare? <==> v == (0, 5)
      ensures this.Start? <==> v == (8, 5)
      ensures this.Stop? <==> v == (10, 7)
      ensures this.Reset? <==> v == (9, 7)
    {
      match this
      case Tare => (0, 5)
      case Start => (8, 5)
      case Stop => (10, 7)
      case Reset => (9, 7)
    }
  }

  /** Distinct message types have distinct selector bytes. */
  lemma MsgTypeValueInjective(a: MsgType, b: MsgType)
    ensures a.Value() == b.Value() <==> a == b
  {
  }

  /** Distinct button events have distinct byte pairs. */
  lemma ButtonEventValueInjective(a: ButtonEvent, b: ButtonEvent)
    ensures a.Value() == b.Value() <==> a == b
  {
  }

  /** Why a decoder refused its input; one constructor per error string of
      the source. */
  datatype DecodeError =
    | SettingsWrongLength      // "Payload must be 11 bytes long"
    | EmptyPayload             // "Payload is empty"
    | HeartbeatTooShort        // "Payload too short for heartbeat"
    | UnknownHeartbeatType     // "Unknown heartbeat type"
    | ButtonTooShort           // "Payload too short for button message"
    | WeightTooShort           // "Weight payload too short"
    | InvalidUnit              // "Invalid unit value"
    | TimeTooShort             // "Time payload too short"

  datatype Result<T> = Ok(value: T) | Err(error: DecodeError)

  /** Where the source indexes or slices past the end of a buffer. */
  datatype Fault =
    | MsgTypeOutOfBounds       // `payload[1]` on a one-byte buffer
    | ButtonSliceOutOfBounds   // `data[2..6]` on a button frame shorter than 6

  /** What a decoder call does: return a `Result`, or panic. */
  datatype Outcome<T> = Returned(result: Result<T>) | Panicked(fault: Fault)

  /** Device settings; `units` holds the source's strings "grams" / "ounces". */
  datatype Settings = Settings(battery: u8, units: Option<string>, autoOff: u8, beepOn: bool)

  /** A decoded event notification. Weights and times are exact reals. */
  datatype Message =
    | WeightMsg(weight: real)
    | HeartbeatMsg(value: Option<real>, time: Option<real>)
    | TimerMsg(elapsed: real)
    | ButtonMsg(button: string, value: Option<real>, time: Option<real>)
    | UnknownMsg(msgType: u8, payload: seq<u8>)
}
