/** Inbound notification decoding: device settings, event messages, and the
    fixed-point weight and minutes/seconds/tenths time fields inside them.
    Weights and times are exact reals; the source's `f32` rounding is not
    modelled. Where the source indexes or slices out of bounds it panics, and
    the model says so with a `Panicked` outcome. */
module Decoding {
  import opened Protocol

  /** Largest weight magnitude a frame can carry: 65535 / 10. */
  const MAX_WEIGHT: real := 6553.5

  /** Largest time a frame can carry: 255 * 60 + 255 + 255 / 10 seconds. */
  const MAX_TIME: real := 15580.5

  function Pow10(n: nat): (r: nat)
    ensures r >= 1
  {
    if n == 0 then 1 else 10 * Pow10(n - 1)
  }

  /** `(x & 0x02) == 0x02`: bit 1 of the byte is set. */
  predicate SignBitSet(x: u8)
  {
    (x / 2) % 2 == 1
  }

  /** The divisor selected by the unit byte, or `None` for an invalid unit. */
  function UnitDivisor(unit: u8): (r: Option<real>)
    ensures r.Some? <==> 1 <= unit <= 4
    ensures r.Some? ==> r.value == Pow10(unit) as real
  {
    match unit
    case 1 => Some(10.0)
    case 2 => Some(100.0)
    case 3 => Some(1000.0)
    case 4 => Some(10000.0)
    case _ => None
  }

  /** The weight field: a little-endian 16-bit magnitude in bytes 0 and 1, a
      unit byte 4 giving the number of decimals, and bit 1 of byte 5 as sign. */
  function DecodeWeight(b: seq<u8>): (r: Result<real>)
    ensures r.Ok? <==> |b| >= 6 && 1 <= b[4] <= 4
    ensures |b| < 6 ==> r == Err(WeightTooShort)
    ensures |b| >= 6 && !(1 <= b[4] <= 4) ==> r == Err(InvalidUnit)
    ensures r.Ok? ==>
      var magnitude := (b[0] as int + 256 * b[1] as int) as real / Pow10(b[4]) as real;
      r.value == if (b[5] / 2) % 2 == 1 then -magnitude else magnitude
  {
    if |b| < 6 then Err(WeightTooShort)
    else
      // `(b[1] as u16) << 8 | b[0] as u16`: the two bytes occupy disjoint bits
      var raw := (b[1] as int * 256 + b[0] as int) as real;
      match UnitDivisor(b[4])
      case None => Err(InvalidUnit)
      case Some(divisor) =>
        var value := raw / divisor;
        Ok(if SignBitSet(b[5]) then -value else value)
  }

  /** The time field: minutes, seconds and tenths of a second in bytes 0..2. */
  function DecodeTime(b: seq<u8>): (r: Result<real>)
    ensures r.Ok? <==> |b| >= 3
    ensures |b| < 3 ==> r == Err(TimeTooShort)
    ensures r.Ok? ==> r.value * 10.0 == (600 * b[0] as int + 10 * b[1] as int + b[2] as int) as real
  {
    if |b| < 3 then Err(TimeTooShort)
    else Ok((b[0] as real) * 60.0 + b[1] as real + (b[2] as real) / 10.0)
  }

  /** `payload[4] * 5` on `u8`, wrapping as a release build does. */
  function AutoOffMinutes(raw: u8): (r: u8)
    ensures raw <= 51 ==> r == 5 * raw
    ensures (5 * raw - r) % 256 == 0
  {
    (raw as int * 5) % 256
  }

  /** The settings record, from the whole 11-byte notification. */
  function DecodeSettings(b: seq<u8>): (r: Result<Settings>)
    ensures r.Err? <==> |b| != 11
    ensures r.Err? ==> r.error == SettingsWrongLength
    ensures r.Ok? ==> r.value.battery == b[1] % 128 && r.value.battery <= 127
    ensures r.Ok? ==> (r.value.units == Some("grams") <==> b[2] == 2)
    ensures r.Ok? ==> (r.value.units == Some("ounces") <==> b[2] == 5)
    ensures r.Ok? ==> (r.value.units == None <==> b[2] != 2 && b[2] != 5)
    ensures r.Ok? ==> r.value.autoOff == (b[4] as int * 5) % 256
    ensures r.Ok? ==> (r.value.beepOn <==> b[6] == 1)
  {
    if |b| != 11 then Err(SettingsWrongLength)
    else
      var units := match b[2]
        case 2 => Some("grams")
        case 5 => Some("ounces")
        case _ => None;
      // `payload[1] & 0x7F` clears the top bit
      Ok(Settings(b[1] % 128, units, AutoOffMinutes(b[4]), b[6] == 1))
  }

  /** The result of an arm that carries one reading: the message built from
      it, or the reading's error, as the `?` operator passes it on. */
  function WithReading(x: Result<real>, build: real -> Message): Outcome<Message>
  {
    match x
    case Ok(v) => Returned(Ok(build(v)))
    case Err(e) => Returned(Err(e))
  }

  /** Heartbeat: sub-type byte `data[2]` selects a weight or a time at `data[3..]`. */
  function DecodeHeartbeat(data: seq<u8>): (r: Outcome<Message>)
    ensures r.Returned?
    ensures r.result.Ok? ==> r.result.value.HeartbeatMsg?
    ensures r.result.Ok? ==> r.result.value.value.Some? != r.result.value.time.Some?
    ensures r.result.Err? <==>
      || |data| < 3
      || (data[2] != 5 && data[2] != 7)
      || (data[2] == 5 && DecodeWeight(data[3..]).Err?)
      || (data[2] == 7 && DecodeTime(data[3..]).Err?)
  {
    if |data| < 3 then Returned(Err(HeartbeatTooShort))
    else match data[2]
      case 5 => WithReading(DecodeWeight(data[3..]), w => HeartbeatMsg(Some(w), None))
      case 7 => WithReading(DecodeTime(data[3..]), t => HeartbeatMsg(None, Some(t)))
      case _ => Returned(Err(UnknownHeartbeatType))
  }

  /** Stop / reset button: time at `data[2..6]`, then weight at `data[6..]`. */
  function DecodeTimedButton(name: string, data: seq<u8>): (r: Outcome<Message>)
    requires |data| >= 2
    ensures r.Panicked? <==> |data| < 6
    ensures r.Returned? ==> (r.result.Ok? <==> DecodeWeight(data[6..]).Ok?)
    ensures r.Returned? && r.result.Ok? ==>
      r.result.value == ButtonMsg(name, Some(DecodeWeight(data[6..]).value), Some(DecodeTime(data[2..6]).value))
    ensures r.Returned? && r.result.Err? ==> r.result.error == DecodeWeight(data[6..]).error
  {
    if |data| < 6 then Panicked(ButtonSliceOutOfBounds)
    else match DecodeTime(data[2..6])
      case Err(e) => Returned(Err(e))
      case Ok(t) => WithReading(DecodeWeight(data[6..]), w => ButtonMsg(name, Some(w), Some(t)))
  }

  /** Button: the pair `(data[0], data[1])` identifies the button. */
  function DecodeButton(data: seq<u8>): (r: Outcome<Message>)
    ensures r == Returned(Err(ButtonTooShort)) <==> |data| < 2
    ensures r.Returned? && r.result.Ok? ==> r.result.value.ButtonMsg?
    ensures r.Panicked? <==> 2 <= |data| < 6 && (data[0] == 10 || data[0] == 9) && data[1] == 7
  {
    if |data| < 2 then Returned(Err(ButtonTooShort))
    else match (data[0], data[1])
      case (0, 5) => WithReading(DecodeWeight(data[2..]), w => ButtonMsg("tare", Some(w), None))
      case (8, 5) => WithReading(DecodeWeight(data[2..]), w => ButtonMsg("start", Some(w), None))
      case (10, 7) => DecodeTimedButton("stop", data)
      case (9, 7) => DecodeTimedButton("reset", data)
      case _ => Returned(Ok(ButtonMsg("unknownbutton", None, None)))
  }

  /** An event notification: `b[1]` is the message type, `b[2..]` its data. */
  function DecodeMessage(b: seq<u8>): (r: Outcome<Message>)
    ensures r.Returned? && r.result.Ok? ==>
      && |b| >= 2
      && (r.result.value.WeightMsg? <==> b[1] == 5)
      && (r.result.value.HeartbeatMsg? <==> b[1] == 11)
      && (r.result.value.TimerMsg? <==> b[1] == 7)
      && (r.result.value.ButtonMsg? <==> b[1] == 8)
      && (r.result.value.UnknownMsg? <==> b[1] !in {5, 7, 8, 11})
  {
    if |b| == 0 then Returned(Err(EmptyPayload))
    else if |b| == 1 then Panicked(MsgTypeOutOfBounds)
    else
      var msgType := b[1];
      var data := b[2..];
      match msgType
      case 5 => WithReading(DecodeWeight(data), w => WeightMsg(w))
      case 11 => DecodeHeartbeat(data)
      case 7 => WithReading(DecodeTime(data), t => TimerMsg(t))
      case 8 => DecodeButton(data)
      case _ => Returned(Ok(UnknownMsg(msgType, data)))
  }

  // ---------------------------------------------------------------------
  // Properties of the decoders

  /** Every decoded weight lies within +-6553.5. */
  lemma WeightBound(b: seq<u8>)
    requires DecodeWeight(b).Ok?
    ensures -MAX_WEIGHT <= DecodeWeight(b).value <= MAX_WEIGHT
  {
  }

  /** Every decoded time lies within [0, 15580.5]. */
  lemma TimeBound(b: seq<u8>)
    requires DecodeTime(b).Ok?
    ensures 0.0 <= DecodeTime(b).value <= MAX_TIME
  {
  }

  /** Only the first six bytes of a weight field are read. */
  lemma WeightReadsSixBytes(b: seq<u8>)
    requires |b| >= 6
    ensures DecodeWeight(b) == DecodeWeight(b[..6])
  {
  }

  /** Only the first three bytes of a time field are read. */
  lemma TimeReadsThreeBytes(b: seq<u8>)
    requires |b| >= 3
    ensures DecodeTime(b) == DecodeTime(b[..3])
  {
  }

  /** The six-byte weight field for a magnitude, a number of decimals and a sign,
      with the two unused bytes zero. */
  function WeightField(magnitude: nat, decimals: u8, negative: bool): seq<u8>
    requires magnitude < 0x1_0000
  {
    [magnitude % 256, magnitude / 256, 0, 0, decimals, if negative then 2 else 0]
  }

  /** Decoding a well-formed weight field gives back the signed fixed-point value. */
  lemma DecodeWeightField(magnitude: nat, decimals: u8, negative: bool)
    requires magnitude < 0x1_0000 && 1 <= decimals <= 4
    ensures DecodeWeight(WeightField(magnitude, decimals, negative))
      == Ok(if negative then -(magnitude as real / Pow10(decimals) as real)
            else magnitude as real / Pow10(decimals) as real)
  {
  }

  /** Only an empty buffer is an `EmptyPayload` error. */
  lemma MessageEmptyPayload(b: seq<u8>)
    ensures DecodeMessage(b) == Returned(Err(EmptyPayload)) <==> |b| == 0
  {
  }

  /** The buffers on which the source panics: a one-byte buffer (it reads the
      type byte at index 1), and a stop or reset button frame with fewer than
      six data bytes (it slices `data[2..6]`). */
  predicate PanicsOn(b: seq<u8>)
  {
    || |b| == 1
    || (|b| >= 4 && b[1] == 8 && |b| < 8 && ((b[2] == 10 || b[2] == 9) && b[3] == 7))
  }

  /** `DecodeMessage` panics exactly on those buffers. */
  lemma MessagePanicsExactly(b: seq<u8>)
    ensures DecodeMessage(b).Panicked? <==> PanicsOn(b)
  {
  }

  /** On a buffer that does not panic, the stop/reset time is read from exactly
      four bytes, of which the time decoder reads three, so it never fails. */
  lemma TimedButtonTimeNeverFails(data: seq<u8>)
    requires |data| >= 6
    ensures |data[2..6]| == 4 && DecodeTime(data[2..6]).Ok?
    ensures DecodeTime(data[2..6]) == DecodeTime(data[2..5])
  {
  }

  /** Type 5 is a weight notification carrying the weight of `b[2..]`. */
  lemma DispatchWeight(b: seq<u8>)
    requires |b| >= 2 && b[1] == 5
    ensures DecodeWeight(b[2..]).Ok? ==> DecodeMessage(b) == Returned(Ok(WeightMsg(DecodeWeight(b[2..]).value)))
    ensures DecodeWeight(b[2..]).Err? ==> DecodeMessage(b) == Returned(Err(DecodeWeight(b[2..]).error))
  {
  }

  /** Type 7 is a timer notification carrying the time of `b[2..]`. */
  lemma DispatchTimer(b: seq<u8>)
    requires |b| >= 2 && b[1] == 7
    ensures DecodeTime(b[2..]).Ok? ==> DecodeMessage(b) == Returned(Ok(TimerMsg(DecodeTime(b[2..]).value)))
    ensures DecodeTime(b[2..]).Err? ==> DecodeMessage(b) == Returned(Err(DecodeTime(b[2..]).error))
  {
  }

  /** Any other type outside {5, 7, 8, 11} passes through verbatim and never fails. */
  lemma DispatchUnknown(b: seq<u8>)
    requires |b| >= 2 && b[1] !in {5, 7, 8, 11}
    ensures DecodeMessage(b) == Returned(Ok(UnknownMsg(b[1], b[2..])))
  {
  }

  /** Heartbeat (type 11): its errors, and the field each sub-type fills. */
  lemma DispatchHeartbeat(b: seq<u8>)
    requires |b| >= 2 && b[1] == 11
    ensures |b| < 5 ==> DecodeMessage(b) == Returned(Err(HeartbeatTooShort))
    ensures |b| >= 5 && b[4] != 5 && b[4] != 7 ==> DecodeMessage(b) == Returned(Err(UnknownHeartbeatType))
    ensures |b| >= 5 && b[4] == 5 && DecodeWeight(b[5..]).Ok? ==>
      DecodeMessage(b) == Returned(Ok(HeartbeatMsg(Some(DecodeWeight(b[5..]).value), None)))
    ensures |b| >= 5 && b[4] == 7 && DecodeTime(b[5..]).Ok? ==>
      DecodeMessage(b) == Returned(Ok(HeartbeatMsg(None, Some(DecodeTime(b[5..]).value))))
    ensures |b| >= 5 && b[4] == 5 && DecodeWeight(b[5..]).Err? ==>
      DecodeMessage(b) == Returned(Err(DecodeWeight(b[5..]).error))
    ensures |b| >= 5 && b[4] == 7 && DecodeTime(b[5..]).Err? ==>
      DecodeMessage(b) == Returned(Err(DecodeTime(b[5..]).error))
  {
    if |b| >= 5 {
      assert b[2..][3..] == b[5..];
    }
  }

  /** A decoded heartbeat carries exactly one of a weight and a time. */
  lemma HeartbeatCarriesOne(b: seq<u8>)
    requires DecodeMessage(b).Returned? && DecodeMessage(b).result.Ok?
    requires DecodeMessage(b).result.value.HeartbeatMsg?
    ensures DecodeMessage(b).result.value.value.Some? != DecodeMessage(b).result.value.time.Some?
  {
  }

  /** Button (type 8) whose pair is not one of the four known ones: an
      unclassified button with neither field, which is not an error. */
  lemma DispatchUnknownButton(b: seq<u8>)
    requires |b| >= 4 && b[1] == 8
    requires (b[2], b[3]) !in {(0, 5), (8, 5), (10, 7), (9, 7)}
    ensures DecodeMessage(b) == Returned(Ok(ButtonMsg("unknownbutton", None, None)))
  {
  }

  /** Button (type 8) with fewer than two data bytes is an error. */
  lemma DispatchShortButton(b: seq<u8>)
    requires 2 <= |b| < 4 && b[1] == 8
    ensures DecodeMessage(b) == Returned(Err(ButtonTooShort))
  {
  }

  /** The label the decoder gives each known button. */
  function ButtonLabel(e: ButtonEvent): string
  {
    match e
    case Tare => "tare"
    case Start => "start"
    case Stop => "stop"
    case Reset => "reset"
  }

  /** A button frame whose pair is `e.Value()`: tare and start carry the
      weight of `data[2..]`; stop and reset panic below six data bytes and
      otherwise carry the time of `data[2..6]` and the weight of `data[6..]`;
      a weight error is the frame's error. */
  lemma ButtonEventArm(e: ButtonEvent, rest: seq<u8>)
    ensures e.Tare? || e.Start? ==>
      DecodeMessage([8, 8, e.Value().0, e.Value().1] + rest)
        == if DecodeWeight(rest).Ok?
           then Returned(Ok(ButtonMsg(ButtonLabel(e), Some(DecodeWeight(rest).value), None)))
           else Returned(Err(DecodeWeight(rest).error))
    ensures e.Stop? || e.Reset? ==>
      DecodeMessage([8, 8, e.Value().0, e.Value().1] + rest)
        == if |rest| < 4 then Panicked(ButtonSliceOutOfBounds)
           else if DecodeWeight(rest[4..]).Ok?
           then Returned(Ok(ButtonMsg(ButtonLabel(e), Some(DecodeWeight(rest[4..]).value),
                                      Some(DecodeTime(rest[..4]).value))))
           else Returned(Err(DecodeWeight(rest[4..]).error))
  {
    var b := [8, 8, e.Value().0, e.Value().1] + rest;
    assert b[2..][2..] == rest;
    if |rest| >= 4 {
      assert b[2..][2..6] == rest[..4];
      assert b[2..][6..] == rest[4..];
    }
  }

  /** The pairs the button arm recognises are exactly the `ButtonEvent` values. */
  lemma ButtonPairsAreEvents(b: seq<u8>)
    requires |b| >= 4 && b[1] == 8
    requires DecodeMessage(b).Returned? && DecodeMessage(b).result.Ok?
    ensures DecodeMessage(b).result.value.ButtonMsg?
    ensures DecodeMessage(b).result.value.button != "unknownbutton"
      <==> exists e: ButtonEvent :: e.Value() == (b[2], b[3])
  {
    var pair := (b[2], b[3]);
    if pair == (0, 5) { assert Tare.Value() == pair; }
    else if pair == (8, 5) { assert Start.Value() == pair; }
    else if pair == (10, 7) { assert Stop.Value() == pair; }
    else if pair == (9, 7) { assert Reset.Value() == pair; }
  }

  /** Each `MsgType` selector byte hands the data to the decoder arm of that
      type, whose outcome is the frame's outcome; a frame that decodes is
      therefore of that type's variant. */
  lemma MsgTypeSelectsArm(m: MsgType, data: seq<u8>)
    ensures m.Weight? ==> DecodeMessage([8, m.Value()] + data) == WithReading(DecodeWeight(data), w => WeightMsg(w))
    ensures m.Heartbeat? ==> DecodeMessage([8, m.Value()] + data) == DecodeHeartbeat(data)
    ensures m.Time? ==> DecodeMessage([8, m.Value()] + data) == WithReading(DecodeTime(data), t => TimerMsg(t))
    ensures m.Button? ==> DecodeMessage([8, m.Value()] + data) == DecodeButton(data)
    ensures var r := DecodeMessage([8, m.Value()] + data);
      r.Returned? && r.result.Ok? ==>
        match m
        case Weight => r.result.value.WeightMsg?
        case Heartbeat => r.result.value.HeartbeatMsg?
        case Time => r.result.value.TimerMsg?
        case Button => r.result.value.ButtonMsg?
  {
    assert ([8, m.Value()] + data)[2..] == data;
  }
}
