# Acaia scale protocol codec and session cache

A Dafny model of the core of a Rust client for the Acaia coffee scale. The scale speaks a proprietary framed byte protocol over Bluetooth LE. The model covers four parts:

- **Command frames** (`Encoding`). A frame is `[0xEF, 0xDD, msgType, payload..., ck1, ck2]`. `ck1` and `ck2` are the low bytes of the sums of the payload bytes at even and odd positions. `Encode` fills a zeroed array by index. Its loop keeps two wrapping 16-bit accumulators, and the method is proved equal to the recursive specification `Frame`. `EncodeEventData` builds the event-subscription command. It prepends the self-inclusive length byte `|payload| + 1` and uses message type 12. A frame check `Unframe` is the inverse of `Frame`, proved in both directions.
- **Notification decoding** (`Decoding`). This covers the 11-byte settings record, the event messages (weight, heartbeat, timer, button, unknown), the fixed-point weight field and the minutes/seconds/tenths time field. Every error path of the source is an `Err` with one constructor per error string. A buffer the source would index or slice out of bounds gives a `Panicked` outcome. This happens for a one-byte buffer, whose type byte is read at index 1. It also happens for a stop or reset button frame with fewer than six data bytes, which is sliced at `data[2..6]`.
- **Routing** (`Notifications`). Only notifications from characteristic 0x2A80 are looked at. A leading 9 goes to the settings decoder, a leading 8 goes to the message decoder, and everything else is dropped.
- **Session** (`Scale`, `Commands`). The class `AcaiaScale` has the two cache fields `currentWeight` and `currentTime`. `HandleNotification` is the body of the notification loop, and `HandleNotifications` runs it over a finite stream, stopping on a panic. Both are proved against the pure specifications `StepCache` and `Run`. The command methods (tare, settings request, timer start/stop/reset, identify, event subscription, and the connect handshake writes) return the exact frame bytes they would write.

The decoder exists twice in the repository with identical text, in `src/decoding.rs` and `src/constants.rs`. The encoder also exists twice, in `src/encoding.rs` and `src/main.rs`. One model serves both copies, and the table below cites whichever copy is clearer. The notification loop of `src/main.rs` only logs what it decodes. Its routing is the same `RouteNotification` that the session uses.

Modelling choices:

- Bytes are the subset type `u8` of `int`.
- The source's `f32` weights and times are exact `real`s.
- Bit operations on single bytes are written arithmetically: `x & 0x7F` is `x % 128`, `(x & 0x02) == 0x02` is `(x / 2) % 2 == 1`, and `x & 0xff` is `x` itself.
- The 16-bit `(b1 << 8) | b0` is written as `256 * b1 + b0`. The two operands occupy disjoint bits, so this is the same value.
- Integer overflow follows a release build, which wraps. This applies to the `u16` checksum accumulators and the `u8` product `payload[4] * 5`. The `(payload.len() + 1) as u8` cast truncates modulo 256.
- The transport and timing (network writes, clocks, the notification stream) are replaced by parameters and return values. `HandleNotifications` takes a finite sequence of notifications. The command methods return the frame instead of writing it.

## Model

| member | source | states |
|---|---|---|
| `Encoding.Encode` | src/encoding.rs:76-98 | the filled buffer is exactly `Frame(msgType, payload)`, even though the accumulators wrap at 65536 |
| `Encoding.FrameLayout` | src/encoding.rs:77-95 | a frame has length `5 + |p|`, bytes `EF DD t`, the payload verbatim at `3..3+|p|`, then the even-sum and odd-sum low bytes |
| `Encoding.EmptyFrame` | src/encoding.rs:77-97 | an empty payload gives exactly `[EF, DD, t, 0, 0]` |
| `Encoding.SumsSnoc` | src/encoding.rs:85-92 | one loop step adds the byte to the sum of its own parity and leaves the other sum alone |
| `Encoding.WrappingAdd` | src/encoding.rs:87-91 | adding to a wrapped `u16` accumulator agrees with wrapping the full sum |
| `Encoding.LowByteOfU16` | src/encoding.rs:94-95 | the low byte of the wrapped accumulator is the full sum modulo 256 |
| `Encoding.SumsBound` | src/encoding.rs:82-92 | the even sum is at most 255 per even position and the odd sum at most 255 per odd position |
| `Encoding.AccumulatorsFit` | src/encoding.rs:82-92 | payloads of up to 514 bytes never push an accumulator past 65535, so a debug build does not panic on them |
| `Encoding.UnframeFrame` | src/encoding.rs:76-98 | every frame passes the sentinel and checksum check and yields its own type and payload |
| `Encoding.FrameUnframe` | src/encoding.rs:76-98 | every byte string that passes the check is the frame of the type and payload it yields |
| `Encoding.EncodeEventData` | src/encoding.rs:65-74 | the result is the type-12 frame of `[(|p|+1) mod 256] ++ p` |
| `Encoding.EventFrameLayout` | src/main.rs:105-114 | an event-subscription frame has length `|p| + 6`, type byte 12, length byte `(|p|+1) mod 256`, then `p` verbatim |
| `Protocol.MsgType.Value` | src/constants.rs:19-27 | Weight maps to 5, Heartbeat to 11, Time to 7 and Button to 8, each byte to exactly one type |
| `Protocol.MsgTypeValueInjective` | src/constants.rs:19-27 | two message types have the same selector byte iff they are equal |
| `Protocol.ButtonEvent.Value` | src/constants.rs:37-46 | tare is exactly `(0, 5)`, start `(8, 5)`, stop `(10, 7)` and reset `(9, 7)`; tare and start pair with 5, stop and reset with 7 |
| `Protocol.ButtonEventValueInjective` | src/constants.rs:37-46 | two button events have the same byte pair iff they are equal |
| `Decoding.DecodeSettings` | src/decoding.rs:6-23 | fails iff the length is not 11; on success battery is `b[1] mod 128`, units is "grams" iff `b[2]=2` and "ounces" iff `b[2]=5` (else none), auto-off is `5*b[4] mod 256`, beep is on iff `b[6]=1` |
| `Decoding.AutoOffMinutes` | src/decoding.rs:20 | the `u8` product is congruent to `5 * raw` modulo 256, and equals it exactly when `raw <= 51` |
| `Decoding.UnitDivisor` | src/decoding.rs:101-108 | a divisor exists iff the unit byte is 1..4, and it is `10^unit` |
| `Decoding.DecodeWeight` | src/decoding.rs:96-113 | fails with "too short" iff fewer than 6 bytes, and with "invalid unit" iff `b[4]` is not in 1..4; otherwise the value is `(b[0] + 256*b[1]) / 10^b[4]`, negated iff bit 1 of `b[5]` is set |
| `Decoding.DecodeTime` | src/decoding.rs:115-123 | fails iff fewer than 3 bytes; otherwise ten times the value is `600*b[0] + 10*b[1] + b[2]` |
| `Decoding.DecodeMessage` | src/decoding.rs:29-93 | a successful decode needs a type byte, and the message variant is Weight iff the type is 5, Heartbeat iff 11, Timer iff 7, Button iff 8 and Unknown iff any other byte |
| `Decoding.DecodeHeartbeat` | src/decoding.rs:39-54 | never panics; a success is a heartbeat with exactly one of a weight and a time; it fails iff the data is shorter than 3, the sub-type is not 5 or 7, or the sub-decoder at `data[3..]` fails |
| `Decoding.DecodeButton` | src/decoding.rs:56-86 | "too short" iff fewer than 2 data bytes; every success is a button; it panics iff a stop or reset pair has fewer than 6 data bytes |
| `Decoding.DecodeTimedButton` | src/decoding.rs:71-80 | panics iff fewer than 6 data bytes; otherwise succeeds iff the weight of `data[6..]` decodes, with the time of `data[2..6]` and that weight, and fails with the weight's error |
| `Decoding.WeightBound` | src/constants.rs:165-182 | every decoded weight lies within ±6553.5 |
| `Decoding.TimeBound` | src/constants.rs:184-192 | every decoded time lies within [0, 15580.5] |
| `Decoding.WeightReadsSixBytes` | src/decoding.rs:96-113 | bytes after the sixth do not affect the weight |
| `Decoding.TimeReadsThreeBytes` | src/decoding.rs:115-123 | bytes after the third do not affect the time |
| `Decoding.DecodeWeightField` | src/decoding.rs:100-112 | the six-byte field built from any magnitude below 65536, decimals 1..4 and a sign decodes back to that signed fixed-point value |
| `Decoding.MessageEmptyPayload` | src/constants.rs:99-101 | the message decoder reports "payload is empty" iff the buffer is empty |
| `Decoding.MessagePanicsExactly` | src/constants.rs:98-157 | the message decoder panics exactly on a one-byte buffer and on a stop or reset button frame with fewer than six data bytes |
| `Decoding.TimedButtonTimeNeverFails` | src/constants.rs:140-149 | when the stop/reset slice does not panic it holds exactly 4 bytes, the time decoder reads the first 3, and it never fails |
| `Decoding.DispatchWeight` | src/decoding.rs:34-38 | type 5 yields `Weight` with the weight of `b[2..]`, or that weight's error |
| `Decoding.DispatchTimer` | src/decoding.rs:55 | type 7 yields `Timer` with the time of `b[2..]`, or that time's error |
| `Decoding.DispatchUnknown` | src/decoding.rs:88-91 | a type outside {5, 7, 8, 11} yields `Unknown` with the type and data verbatim and never fails |
| `Decoding.DispatchHeartbeat` | src/decoding.rs:39-54 | type 11 fails if the data has fewer than 3 bytes or its sub-type is not 5 or 7; sub-type 5 carries only the weight of `data[3..]` and 7 only its time, and an error of that weight or time is the message's error |
| `Decoding.HeartbeatCarriesOne` | src/decoding.rs:44-51 | a decoded heartbeat carries exactly one of a weight and a time |
| `Decoding.DispatchShortButton` | src/decoding.rs:57-59 | type 8 with fewer than 2 data bytes is an error |
| `Decoding.DispatchUnknownButton` | src/decoding.rs:81-85 | type 8 with any other byte pair is the "unknownbutton" button with neither field, not an error |
| `Decoding.ButtonEventArm` | src/decoding.rs:60-80 | the whole outcome of each known button frame: tare and start give the labelled button with the weight of `data[2..]` or that weight's error; stop and reset panic below 6 data bytes, and otherwise give the button with the time of `data[2..6]` and the weight of `data[6..]`, or that weight's error |
| `Decoding.ButtonPairsAreEvents` | src/constants.rs:129-149 | a decoded button is classified iff its pair is the value of some `ButtonEvent` |
| `Decoding.MsgTypeSelectsArm` | src/constants.rs:106-157 | each `MsgType` selector byte hands the data to that type's arm, and the frame's outcome is exactly that arm's outcome; so a frame with selector `m.Value()` that decodes is `m`'s variant |
| `Notifications.RouteNotification` | src/main.rs:64-79 | a leading 9 on characteristic 0x2A80 goes to the settings decoder, a leading 8 to the message decoder, each with the whole buffer |
| `Notifications.IgnoredNotifications` | src/main.rs:64-77 | a notification is dropped iff it is from another characteristic, is empty, or leads with a byte other than 8 and 9 |
| `Notifications.SettingsRouteLength` | src/acaia_scale.rs:62-66 | a routed settings frame decodes iff it is 11 bytes long |
| `Notifications.LoneEventBytePanics` | src/main.rs:72-73 | the single byte `[8]` passes the routing and makes the message decoder panic |
| `Commands.ConstantSums` | src/main.rs:88-89 | a run of `n` equal bytes `c` has even sum `c*ceil(n/2)` and odd sum `c*floor(n/2)` |
| `Commands.TareFrame` | src/acaia_scale.rs:113-120 | tare is `EF DD 04 00 00 00` |
| `Commands.SettingsRequestFrame` | src/acaia_scale.rs:103-111 | the settings request is 21 bytes: `EF DD 06`, sixteen zeros, `00 00` |
| `Commands.IdentFrame` | src/main.rs:87-93 | identify is 20 bytes: `EF DD 0B`, fifteen `2D`, `68 3B` |
| `Commands.EventSubscriptionFrame` | src/main.rs:95-103 | the event subscription is `EF DD 0C 09 00 01 01 02 02 05 03 04 15 06` |
| `Commands.TimerActionFrames` | src/acaia_scale.rs:122-140 | start, reset and stop are type-13 frames over `[0,0]`, `[0,1]` and `[0,2]`, with their exact bytes |
| `Scale.Absorb` | src/acaia_scale.rs:69-77 | a decoded message never removes a reading, and a field changes only to the reading the message itself carries for it |
| `Scale.StepCache` | src/acaia_scale.rs:60-80 | one loop iteration crashes iff the message decoder panics, and changes the cache only for a successfully decoded event frame |
| `Scale.ForeignCharacteristicUnchanged` | src/acaia_scale.rs:60 | a notification from another characteristic leaves the cache unchanged |
| `Scale.NonUpdatingFramesUnchanged` | src/acaia_scale.rs:62-68 | settings frames, dropped frames and decode errors leave the cache unchanged |
| `Scale.AbsorbByVariant` | src/acaia_scale.rs:69-77 | a weight sets only the weight, a timer only the time, a heartbeat exactly the fields it carries; buttons and unknown messages change nothing |
| `Scale.HeartbeatUpdatesOneField` | src/acaia_scale.rs:71-74 | a decoded heartbeat sets the field it carries to its reading and keeps the other field |
| `Scale.StepKeepsReadings` | src/acaia_scale.rs:95-101 | no notification turns a cached reading back into none |
| `Scale.RunKeepsReadings` | src/acaia_scale.rs:59-81 | no stream of notifications turns a cached reading back into none |
| `Scale.RunSnoc` | src/acaia_scale.rs:59-81 | processing one more notification after a stream is one more step, unless the consumer already stopped |
| `Scale.LatestWeightWins` | src/acaia_scale.rs:70 | after a stream ending in a decoded weight notification, the cached weight is that weight |
| `Scale.LatestHeartbeatWeightWins` | src/acaia_scale.rs:71-72 | after a stream ending in a decoded heartbeat that carries a weight, the cached weight is that weight and the time is as before |
| `Scale.LatestHeartbeatTimeWins` | src/acaia_scale.rs:71-73 | after a stream ending in a decoded heartbeat that carries a time, the cached time is that time and the weight is as before |
| `Scale.LatestTimeWins` | src/acaia_scale.rs:75 | after a stream ending in a decoded timer notification, the cached time is that time |
| `Scale.CrashIsFinal` | src/acaia_scale.rs:41-48 | once the consumer task has panicked, later notifications change nothing |
| `Scale.AcaiaScale.constructor` | src/acaia_scale.rs:23-31 | a new session has neither a weight nor a time |
| `Scale.AcaiaScale.SetWeight` | src/acaia_scale.rs:95-97 | sets the weight and keeps the time |
| `Scale.AcaiaScale.SetTime` | src/acaia_scale.rs:99-101 | sets the time and keeps the weight |
| `Scale.AcaiaScale.HandleNotification` | src/acaia_scale.rs:60-80 | the new cache is `StepCache` of the old one; it reports a panic iff the decoder panics, and then leaves the cache unchanged; no reading becomes none |
| `Scale.AcaiaScale.HandleNotifications` | src/acaia_scale.rs:57-85 | the final cache and the panic flag are `Run` of the old cache over the stream |
| `Scale.AcaiaScale.SendAction` | src/acaia_scale.rs:162-167 | the written frame is the type-13 frame of the payload |
| `Scale.AcaiaScale.Tare` | src/acaia_scale.rs:113-120 | writes `EF DD 04 00 00 00` |
| `Scale.AcaiaScale.RequestSettings` | src/acaia_scale.rs:103-111 | writes `EF DD 06`, sixteen zeros, `00 00` |
| `Scale.AcaiaScale.StartTimer` | src/acaia_scale.rs:122-126 | writes `EF DD 0D 00 00 00 00` |
| `Scale.AcaiaScale.StopTimer` | src/acaia_scale.rs:128-133 | writes `EF DD 0D 00 02 00 02` |
| `Scale.AcaiaScale.ResetTimer` | src/acaia_scale.rs:135-140 | writes `EF DD 0D 00 01 00 01` |
| `Scale.AcaiaScale.Ident` | src/acaia_scale.rs:142-149 | writes `EF DD 0B`, fifteen `2D`, `68 3B` |
| `Scale.AcaiaScale.RequestHeartbeat` | src/acaia_scale.rs:151-160 | writes `EF DD 0C 09 00 01 01 02 02 05 03 04 15 06` |
| `Scale.AcaiaScale.Handshake` | src/acaia_scale.rs:50-51 | connect writes the identify frame first and then the event-subscription frame |

## Left out

- Bluetooth transport (connect, service discovery, subscribe, write, the notification stream, `is_connected` with its 200 ms timeout, looking up the command characteristic): this is foreign library I/O. Writes are modelled as returned frames, and the stream as a finite sequence.
- tokio concerns (the spawned task, the mutexes around the two cache fields, the 100 ms settle delay, the async loop): concurrency and clocks are not modelled. The claim that readers never see a torn value rests on the mutex and is not stated.
- `f32` rounding: weights and times are exact reals, so the model also has no negative zero. A negative sign on magnitude 0 gives 0 here, where `f32` gives -0.0.
- Debug-build overflow panics: the model follows release-build wrap-around. In a debug build, `payload[4] * 5` panics for `payload[4] > 51`, and the checksum accumulators panic once a parity sum passes 65535 (no payload of up to 514 bytes gets there, see `AccumulatorsFit`).
- `Encoding.Encode`: the `u16` accumulators wrap (release semantics) rather than panic. The wrapped and the unbounded sums have the same low byte, so whenever a debug build produces a frame, it is this one.
- Logging (`Message::log`, `Settings::log`, the `println!` calls) is console output only. The settings decoded in the notification loop is only logged, so the model decodes it and drops it.
- UUIDs are modelled by the 16-bit short form `0x2A80` of the 128-bit characteristic UUID. The code only compares UUIDs for equality, so nothing depends on the other bits.
- Device discovery (`src/acaia_scanner.rs`), `main` and `find_acaia_device` are adapter startup and scanning I/O.
- The commented-out first version of the commands in `src/encoding.rs` is not live code. Note that it used type 5 for tare, while the live code uses type 4.
- The source's `Units` enum is never used by the decoder, which stores the strings "grams" and "ounces". The model keeps the strings.
- Determinism of `encode`: every Dafny function and method here is deterministic in its inputs, so two frames built from the same arguments are equal by construction.
