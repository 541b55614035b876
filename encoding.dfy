/** Outbound command frames: `[MAGIC1, MAGIC2, msgType, payload..., ck1, ck2]`,
    where `ck1` / `ck2` are the low bytes of the sums of the payload bytes at
    even / odd positions, and the length-prefixed event-subscription wrapper. */
module Encoding {
  import opened Protocol

  /** Message type of the event-subscription wrapper. */
  const EVENT_DATA_TYPE: u8 := 12

  /** Modulus of the source's `u16` checksum accumulators. */
  const U16_MODULUS: nat := 0x1_0000

  /** Sum of the bytes of `p` at positions 0, 2, 4, ... */
  function EvenSum(p: seq<u8>): nat
  {
    if |p| == 0 then 0 else p[0] + OddSum(p[1..])
  }

  /** Sum of the bytes of `p` at positions 1, 3, 5, ... */
  function OddSum(p: seq<u8>): nat
  {
    if |p| == 0 then 0 else EvenSum(p[1..])
  }

  /** Appending a byte adds it to the sum of its own parity class only. */
  lemma {:induction false} SumsSnoc(p: seq<u8>, x: u8)
    ensures EvenSum(p + [x]) == EvenSum(p) + (if |p| % 2 == 0 then x else 0)
    ensures OddSum(p + [x]) == OddSum(p) + (if |p| % 2 == 1 then x else 0)
  {
    if |p| == 0 {
      assert (p + [x])[1..] == [];
    } else {
      assert (p + [x])[1..] == p[1..] + [x];
      SumsSnoc(p[1..], x);
    }
  }

  /** Each parity sum is at most 255 per byte of that parity. */
  lemma {:induction false} SumsBound(p: seq<u8>)
    ensures EvenSum(p) <= 255 * ((|p| + 1) / 2)
    ensures OddSum(p) <= 255 * (|p| / 2)
  {
    if |p| > 0 {
      SumsBound(p[1..]);
    }
  }

  /** Payloads of up to 514 bytes never carry either `u16` accumulator past
      65535, so in a debug build `encode` does not panic on them. */
  lemma AccumulatorsFit(p: seq<u8>)
    requires |p| <= 514
    ensures EvenSum(p) < U16_MODULUS && OddSum(p) < U16_MODULUS
  {
    SumsBound(p);
  }

  /** Reducing modulo 65536 first does not change the low byte. */
  lemma LowByteOfU16(x: nat)
    ensures (x % U16_MODULUS) % 256 == x % 256
  {
  }

  /** One step of a wrapping `u16` accumulator agrees with the wrapped total. */
  lemma WrappingAdd(total: nat, x: nat)
    ensures (total % U16_MODULUS + x) % U16_MODULUS == (total + x) % U16_MODULUS
  {
  }

  /** The command frame for `msgType` and `payload`. */
  function Frame(msgType: u8, payload: seq<u8>): seq<u8>
  {
    [MAGIC1, MAGIC2, msgType] + payload + [EvenSum(payload) % 256, OddSum(payload) % 256]
  }

  /** Byte-level layout of a frame: length, header, verbatim payload, checksums. */
  lemma FrameLayout(msgType: u8, payload: seq<u8>)
    ensures |Frame(msgType, payload)| == 5 + |payload|
    ensures Frame(msgType, payload)[0] == 0xEF && Frame(msgType, payload)[1] == 0xDD
    ensures Frame(msgType, payload)[2] == msgType
    ensures Frame(msgType, payload)[3..3 + |payload|] == payload
    ensures Frame(msgType, payload)[3 + |payload|] == EvenSum(payload) % 256
    ensures Frame(msgType, payload)[4 + |payload|] == OddSum(payload) % 256
  {
  }

  /** An empty payload gives a frame with two zero checksums. */
  lemma EmptyFrame(msgType: u8)
    ensures Frame(msgType, []) == [0xEF, 0xDD, msgType, 0, 0]
  {
  }

  /** A frame check as a receiver would run it: the sentinels are present and
      both checksum bytes match the payload between header and checksums.
      On success it gives back the message type and the payload. */
  function Unframe(f: seq<u8>): Option<(u8, seq<u8>)>
  {
    if |f| < 5 || f[0] != MAGIC1 || f[1] != MAGIC2 then None
    else
      var p := f[3..|f| - 2];
      if f[|f| - 2] == EvenSum(p) % 256 && f[|f| - 1] == OddSum(p) % 256
      then Some((f[2], p))
      else None
  }

  /** Every frame passes the check and yields its own type and payload... */
  lemma UnframeFrame(msgType: u8, payload: seq<u8>)
    ensures Unframe(Frame(msgType, payload)) == Some((msgType, payload))
  {
  }

  /** ...and every byte string that passes the check is the frame of what it yields. */
  lemma FrameUnframe(f: seq<u8>)
    requires Unframe(f).Some?
    ensures f == Frame(Unframe(f).value.0, Unframe(f).value.1)
  {
  }

  /** The frame builder: fills a zeroed buffer of `5 + |payload|` bytes by index,
      accumulating the even and odd checksums in wrapping `u16` counters. */
  method Encode(msgType: u8, payload: seq<u8>) returns (frame: seq<u8>)
    ensures frame == Frame(msgType, payload)
  {
    var bytes := new u8[5 + |payload|](_ => 0);
    bytes[0] := MAGIC1;
    bytes[1] := MAGIC2;
    bytes[2] := msgType;

    var cksum1: nat, cksum2: nat := 0, 0;
    for i := 0 to |payload|
      invariant bytes[0] == MAGIC1 && bytes[1] == MAGIC2 && bytes[2] == msgType
      invariant forall j :: 0 <= j < i ==> bytes[3 + j] == payload[j]
      invariant cksum1 == EvenSum(payload[..i]) % U16_MODULUS
      invariant cksum2 == OddSum(payload[..i]) % U16_MODULUS
    {
      bytes[3 + i] := payload[i];
      assert payload[..i + 1] == payload[..i] + [payload[i]];
      SumsSnoc(payload[..i], payload[i]);
      if i % 2 == 0 {
        WrappingAdd(EvenSum(payload[..i]), payload[i]);
        cksum1 := (cksum1 + payload[i]) % U16_MODULUS;
      } else {
        WrappingAdd(OddSum(payload[..i]), payload[i]);
        cksum2 := (cksum2 + payload[i]) % U16_MODULUS;
      }
    }

    assert payload[..|payload|] == payload;
    LowByteOfU16(EvenSum(payload));
    LowByteOfU16(OddSum(payload));
    bytes[|payload| + 3] := cksum1 % 256;
    bytes[|payload| + 4] := cksum2 % 256;
    frame := bytes[..];
    assert forall j :: 0 <= j < |frame| ==> frame[j] == Frame(msgType, payload)[j];
  }

  /** The event-subscription command: a type-12 frame whose payload is the
      self-inclusive length byte `|payload| + 1` (truncated to a byte)
      followed by the payload. */
  method EncodeEventData(payload: seq<u8>) returns (frame: seq<u8>)
    ensures frame == Frame(EVENT_DATA_TYPE, [(|payload| + 1) % 256] + payload)
  {
    var bytes: seq<u8> := [(|payload| + 1) % 256];
    for i := 0 to |payload|
      invariant bytes == [(|payload| + 1) % 256] + payload[..i]
    {
      bytes := bytes + [payload[i]];  // `byte & 0xff` is the identity on a byte
      assert payload[..i + 1] == payload[..i] + [payload[i]];
    }
    assert payload[..|payload|] == payload;
    frame := Encode(EVENT_DATA_TYPE, bytes);
  }

  /** Layout of an event-subscription frame. */
  lemma EventFrameLayout(payload: seq<u8>)
    ensures var f := Frame(EVENT_DATA_TYPE, [(|payload| + 1) % 256] + payload);
      && |f| == |payload| + 6
      && f[2] == 12
      && f[3] == (|payload| + 1) % 256
      && f[4..4 + |payload|] == payload
  {
  }
}
