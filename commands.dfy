/** The fixed command payloads the session sends, and the exact frames they
    encode to. */
module Commands {
  import opened Protocol
  import opened Encoding

  const TARE_TYPE: u8 := 4
  const SETTINGS_TYPE: u8 := 6
  const IDENT_TYPE: u8 := 11
  const ACTION_TYPE: u8 := 13

  const TARE_PAYLOAD: seq<u8> := [0]
  const SETTINGS_PAYLOAD: seq<u8> := seq(16, _ => 0)
  const IDENT_PAYLOAD: seq<u8> := seq(15, _ => 0x2D)
  /** Event-subscription payload before its length prefix is added. */
  const EVENT_PAYLOAD: seq<u8> := [0, 1, 1, 2, 2, 5, 3, 4]
  const START_TIMER_ACTION: seq<u8> := [0, 0]
  const RESET_TIMER_ACTION: seq<u8> := [0, 1]
  const STOP_TIMER_ACTION: seq<u8> := [0, 2]

  /** Checksum sums of a run of `n` copies of one byte. */
  lemma {:induction false} ConstantSums(n: nat, c: u8)
    ensures EvenSum(seq(n, _ => c)) == c * ((n + 1) / 2)
    ensures OddSum(seq(n, _ => c)) == c * (n / 2)
  {
    if n > 0 {
      var s := seq(n, _ => c);
      assert s[1..] == seq(n - 1, _ => c);
      ConstantSums(n - 1, c);
      var k := (n - 1) / 2;
      assert (n + 1) / 2 == k + 1;
      assert c * (k + 1) == c * k + c;
      assert EvenSum(s) == c + c * k;
    }
  }

  /** Tare: `EF DD 04 00 00 00`. */
  lemma TareFrame()
    ensures Frame(TARE_TYPE, TARE_PAYLOAD) == [0xEF, 0xDD, 0x04, 0x00, 0x00, 0x00]
  {
  }

  /** Settings request: sixteen zero bytes, both checksums zero, 21 bytes. */
  lemma SettingsRequestFrame()
    ensures Frame(SETTINGS_TYPE, SETTINGS_PAYLOAD) == [0xEF, 0xDD, 0x06] + SETTINGS_PAYLOAD + [0x00, 0x00]
    ensures |Frame(SETTINGS_TYPE, SETTINGS_PAYLOAD)| == 21
  {
    ConstantSums(16, 0);
  }

  /** Identify: fifteen bytes 0x2D, checksums (8 * 45) mod 256 = 0x68 and
      (7 * 45) mod 256 = 0x3B, 20 bytes. */
  lemma IdentFrame()
    ensures Frame(IDENT_TYPE, IDENT_PAYLOAD) == [0xEF, 0xDD, 0x0B] + IDENT_PAYLOAD + [0x68, 0x3B]
    ensures |Frame(IDENT_TYPE, IDENT_PAYLOAD)| == 20
  {
    ConstantSums(15, 0x2D);
  }

  /** Event subscription: `EF DD 0C 09 00 01 01 02 02 05 03 04 15 06`, 14
      bytes, checksums 21 and 6 over the length-prefixed payload. */
  lemma EventSubscriptionFrame()
    ensures Frame(EVENT_DATA_TYPE, [(|EVENT_PAYLOAD| + 1) % 256] + EVENT_PAYLOAD)
      == [0xEF, 0xDD, 0x0C, 0x09, 0x00, 0x01, 0x01, 0x02, 0x02, 0x05, 0x03, 0x04, 0x15, 0x06]
  {
    var p: seq<u8> := [9, 0, 1, 1, 2, 2, 5, 3, 4];
    assert [(|EVENT_PAYLOAD| + 1) % 256] + EVENT_PAYLOAD == p;
    assert EvenSum([4]) == 4 && OddSum([4]) == 0;
    assert [3, 4][1..] == [4];
    assert EvenSum([3, 4]) == 3 && OddSum([3, 4]) == 4;
    assert [5, 3, 4][1..] == [3, 4];
    assert EvenSum([5, 3, 4]) == 9 && OddSum([5, 3, 4]) == 3;
    assert [2, 5, 3, 4][1..] == [5, 3, 4];
    assert EvenSum([2, 5, 3, 4]) == 5 && OddSum([2, 5, 3, 4]) == 9;
    assert [2, 2, 5, 3, 4][1..] == [2, 5, 3, 4];
    assert EvenSum([2, 2, 5, 3, 4]) == 11 && OddSum([2, 2, 5, 3, 4]) == 5;
    assert [1, 2, 2, 5, 3, 4][1..] == [2, 2, 5, 3, 4];
    assert EvenSum([1, 2, 2, 5, 3, 4]) == 6 && OddSum([1, 2, 2, 5, 3, 4]) == 11;
    assert [1, 1, 2, 2, 5, 3, 4][1..] == [1, 2, 2, 5, 3, 4];
    assert EvenSum([1, 1, 2, 2, 5, 3, 4]) == 12 && OddSum([1, 1, 2, 2, 5, 3, 4]) == 6;
    assert [0, 1, 1, 2, 2, 5, 3, 4][1..] == [1, 1, 2, 2, 5, 3, 4];
    assert EvenSum([0, 1, 1, 2, 2, 5, 3, 4]) == 6 && OddSum([0, 1, 1, 2, 2, 5, 3, 4]) == 12;
    assert p[1..] == [0, 1, 1, 2, 2, 5, 3, 4];
    assert EvenSum(p) == 21 && OddSum(p) == 6;
  }

  /** Timer actions: start, reset and stop frames. */
  lemma TimerActionFrames()
    ensures Frame(ACTION_TYPE, START_TIMER_ACTION) == [0xEF, 0xDD, 0x0D, 0x00, 0x00, 0x00, 0x00]
    ensures Frame(ACTION_TYPE, RESET_TIMER_ACTION) == [0xEF, 0xDD, 0x0D, 0x00, 0x01, 0x00, 0x01]
    ensures Frame(ACTION_TYPE, STOP_TIMER_ACTION) == [0xEF, 0xDD, 0x0D, 0x00, 0x02, 0x00, 0x02]
  {
  }
}
