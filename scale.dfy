/** The device session: a cache of the latest weight and time, updated one
    notification at a time by the notification consumer, and the command
    frames the session writes. The transport, the spawned task and the mutex
    around each field are not modelled; a write is modelled by returning the
    frame that would be written. */
module Scale {
  import opened Protocol
  import opened Encoding
  import opened Decoding
  import opened Notifications
  import opened Commands

  /** The two cached readings. */
  datatype Cache = Cache(weight: Option<real>, time: Option<real>)

  /** How a decoded message changes the cache: a weight, or the weight of a
      heartbeat, replaces the weight; a timer, or the time of a heartbeat,
      replaces the time; every other message leaves it as it was. */
  function Absorb(c: Cache, m: Message): (r: Cache)
    ensures KeepsReadings(c, r)
    ensures r.weight != c.weight ==>
      (m.WeightMsg? && r.weight == Some(m.weight)) || (m.HeartbeatMsg? && r.weight == m.value)
    ensures r.time != c.time ==>
      (m.TimerMsg? && r.time == Some(m.elapsed)) || (m.HeartbeatMsg? && r.time == m.time)
  {
    match m
    case WeightMsg(w) => c.(weight := Some(w))
    case HeartbeatMsg(w, t) =>
      Cache(if w.Some? then w else c.weight, if t.Some? then t else c.time)
    case TimerMsg(t) => c.(time := Some(t))
    case _ => c
  }

  /** One notification either leaves the consumer running with a new cache
      or makes it panic, which ends the consumer task. */
  datatype Step = Continue(cache: Cache) | Crash

  /** One iteration of the notification loop over the cache. */
  function StepCache(c: Cache, n: Notification): (r: Step)
    ensures r.Crash? <==> RouteNotification(n).EventFrame? && RouteNotification(n).message.Panicked?
    ensures r.Continue? && r.cache != c ==>
      && RouteNotification(n).EventFrame?
      && RouteNotification(n).message.Returned?
      && RouteNotification(n).message.result.Ok?
  {
    match RouteNotification(n)
    case EventFrame(Panicked(_)) => Crash
    case EventFrame(Returned(Ok(m))) => Continue(Absorb(c, m))
    case _ => Continue(c)
  }

  /** The consumer over a whole stream: the final cache, and whether it
      stopped on a panic. */
  function Run(c: Cache, stream: seq<Notification>): (Cache, bool)
    decreases |stream|
  {
    if |stream| == 0 then (c, false)
    else match StepCache(c, stream[0])
      case Crash => (c, true)
      case Continue(c') => Run(c', stream[1..])
  }

  /** `c'` still holds every reading that `c` holds. */
  predicate KeepsReadings(c: Cache, c': Cache)
  {
    (c.weight.Some? ==> c'.weight.Some?) && (c.time.Some? ==> c'.time.Some?)
  }

  // ---------------------------------------------------------------------
  // Properties of one step

  /** A notification from another characteristic changes nothing. */
  lemma ForeignCharacteristicUnchanged(c: Cache, n: Notification)
    requires n.uuid != CHARACTERISTIC_UUID
    ensures StepCache(c, n) == Continue(c)
  {
  }

  /** Settings frames, dropped frames and frames that fail to decode change nothing. */
  lemma NonUpdatingFramesUnchanged(c: Cache, n: Notification)
    requires
      || RouteNotification(n).Ignored?
      || RouteNotification(n).SettingsFrame?
      || (RouteNotification(n).EventFrame? && RouteNotification(n).message.Returned?
          && RouteNotification(n).message.result.Err?)
    ensures StepCache(c, n) == Continue(c)
  {
  }

  /** The cache change for each message variant: weights and timers set one
      field and keep the other; a heartbeat sets the field it carries;
      buttons and unknown messages change nothing. */
  lemma AbsorbByVariant(c: Cache, m: Message)
    ensures m.WeightMsg? ==> Absorb(c, m) == Cache(Some(m.weight), c.time)
    ensures m.TimerMsg? ==> Absorb(c, m) == Cache(c.weight, Some(m.elapsed))
    ensures m.HeartbeatMsg? ==>
      && Absorb(c, m).weight == (if m.value.Some? then m.value else c.weight)
      && Absorb(c, m).time == (if m.time.Some? then m.time else c.time)
    ensures m.ButtonMsg? || m.UnknownMsg? ==> Absorb(c, m) == c
  {
  }

  /** A decoded heartbeat sets the one field it carries and keeps the other. */
  lemma HeartbeatUpdatesOneField(c: Cache, n: Notification)
    requires RouteNotification(n).EventFrame?
    requires RouteNotification(n).message.Returned? && RouteNotification(n).message.result.Ok?
    requires RouteNotification(n).message.result.value.HeartbeatMsg?
    ensures StepCache(c, n).Continue?
    ensures var c' := StepCache(c, n).cache; (c'.weight == c.weight) || (c'.time == c.time)
    ensures var m := RouteNotification(n).message.result.value; var c' := StepCache(c, n).cache;
      && (m.value.Some? ==> c' == Cache(m.value, c.time))
      && (m.time.Some? ==> c' == Cache(c.weight, m.time))
  {
  }

  /** No step turns a reading back into `None`. */
  lemma StepKeepsReadings(c: Cache, n: Notification)
    requires StepCache(c, n).Continue?
    ensures KeepsReadings(c, StepCache(c, n).cache)
  {
  }

  // ---------------------------------------------------------------------
  // Properties of a whole stream

  /** No stream turns a reading back into `None`. */
  lemma {:induction false} RunKeepsReadings(c: Cache, stream: seq<Notification>)
    ensures KeepsReadings(c, Run(c, stream).0)
    decreases |stream|
  {
    if |stream| > 0 {
      match StepCache(c, stream[0])
      case Crash =>
      case Continue(c') =>
        StepKeepsReadings(c, stream[0]);
        RunKeepsReadings(c', stream[1..]);
    }
  }

  /** Running a stream and then one more notification is one step after the run. */
  lemma {:induction false} RunSnoc(c: Cache, stream: seq<Notification>, n: Notification)
    ensures Run(c, stream + [n]) ==
      if Run(c, stream).1 then Run(c, stream)
      else match StepCache(Run(c, stream).0, n)
        case Crash => (Run(c, stream).0, true)
        case Continue(c') => (c', false)
    decreases |stream|
  {
    if |stream| == 0 {
      assert stream + [n] == [n];
    } else {
      assert (stream + [n])[0] == stream[0];
      assert (stream + [n])[1..] == stream[1..] + [n];
      match StepCache(c, stream[0])
      case Crash =>
      case Continue(c') => RunSnoc(c', stream[1..], n);
    }
  }

  /** After a stream ending in a weight notification that the consumer reached,
      the cached weight is that notification's weight. */
  lemma LatestWeightWins(c: Cache, stream: seq<Notification>, n: Notification)
    requires !Run(c, stream).1
    requires RouteNotification(n).EventFrame? && RouteNotification(n).message.Returned?
    requires RouteNotification(n).message.result.Ok?
    requires RouteNotification(n).message.result.value.WeightMsg?
    ensures Run(c, stream + [n]).0.weight == Some(RouteNotification(n).message.result.value.weight)
    ensures !Run(c, stream + [n]).1
  {
    RunSnoc(c, stream, n);
  }

  /** After a stream ending in a heartbeat that carries a weight, the cached
      weight is that heartbeat's weight. */
  lemma LatestHeartbeatWeightWins(c: Cache, stream: seq<Notification>, n: Notification)
    requires !Run(c, stream).1
    requires RouteNotification(n).EventFrame? && RouteNotification(n).message.Returned?
    requires RouteNotification(n).message.result.Ok?
    requires RouteNotification(n).message.result.value.HeartbeatMsg?
    requires RouteNotification(n).message.result.value.value.Some?
    ensures Run(c, stream + [n]).0.weight == RouteNotification(n).message.result.value.value
    ensures Run(c, stream + [n]).0.time == Run(c, stream).0.time
    ensures !Run(c, stream + [n]).1
  {
    RunSnoc(c, stream, n);
  }

  /** After a stream ending in a heartbeat that carries a time, the cached
      time is that heartbeat's time. */
  lemma LatestHeartbeatTimeWins(c: Cache, stream: seq<Notification>, n: Notification)
    requires !Run(c, stream).1
    requires RouteNotification(n).EventFrame? && RouteNotification(n).message.Returned?
    requires RouteNotification(n).message.result.Ok?
    requires RouteNotification(n).message.result.value.HeartbeatMsg?
    requires RouteNotification(n).message.result.value.time.Some?
    ensures Run(c, stream + [n]).0.time == RouteNotification(n).message.result.value.time
    ensures Run(c, stream + [n]).0.weight == Run(c, stream).0.weight
    ensures !Run(c, stream + [n]).1
  {
    RunSnoc(c, stream, n);
  }

  /** After a stream ending in a timer notification that the consumer reached,
      the cached time is that notification's time. */
  lemma LatestTimeWins(c: Cache, stream: seq<Notification>, n: Notification)
    requires !Run(c, stream).1
    requires RouteNotification(n).EventFrame? && RouteNotification(n).message.Returned?
    requires RouteNotification(n).message.result.Ok?
    requires RouteNotification(n).message.result.value.TimerMsg?
    ensures Run(c, stream + [n]).0.time == Some(RouteNotification(n).message.result.value.elapsed)
    ensures !Run(c, stream + [n]).1
  {
    RunSnoc(c, stream, n);
  }

  /** Once the consumer has panicked, later notifications change nothing. */
  lemma {:induction false} CrashIsFinal(c: Cache, stream: seq<Notification>, rest: seq<Notification>)
    requires Run(c, stream).1
    ensures Run(c, stream + rest) == Run(c, stream)
    decreases |stream|
  {
    if |stream| > 0 {
      assert (stream + rest)[0] == stream[0];
      assert (stream + rest)[1..] == stream[1..] + rest;
      match StepCache(c, stream[0])
      case Crash =>
      case Continue(c') => CrashIsFinal(c', stream[1..], rest);
    }
  }

  class AcaiaScale {
    var currentWeight: Option<real>
    var currentTime: Option<real>

    function Readings(): Cache
      reads this
    {
      Cache(currentWeight, currentTime)
    }

    /** A fresh session has no readings. */
    constructor ()
      ensures currentWeight == None && currentTime == None
    {
      currentWeight := None;
      currentTime := None;
    }

    method SetWeight(weight: real)
      modifies this
      ensures currentWeight == Some(weight) && currentTime == old(currentTime)
    {
      currentWeight := Some(weight);
    }

    method SetTime(time: real)
      modifies this
      ensures currentTime == Some(time) && currentWeight == old(currentWeight)
    {
      currentTime := Some(time);
    }

    /** The body of the notification loop for one item. Returns whether the
        decoder panicked, which in the source ends the consumer task. */
    method HandleNotification(n: Notification) returns (crashed: bool)
      modifies this
      ensures crashed <==> StepCache(old(Readings()), n).Crash?
      ensures !crashed ==> Readings() == StepCache(old(Readings()), n).cache
      ensures crashed ==> Readings() == old(Readings())
      ensures KeepsReadings(old(Readings()), Readings())
    {
      crashed := false;
      match RouteNotification(n)
      case EventFrame(Panicked(_)) =>
        crashed := true;
      case EventFrame(Returned(Ok(message))) =>
        match message {
          case WeightMsg(w) =>
            SetWeight(w);
          case HeartbeatMsg(w, t) =>
            if w.Some? { SetWeight(w.value); }
            if t.Some? { SetTime(t.value); }
          case TimerMsg(t) =>
            SetTime(t);
          case _ =>
        }
      case _ =>
    }

    /** The notification loop over a finite stream, stopping on a panic. */
    method HandleNotifications(stream: seq<Notification>) returns (crashed: bool)
      modifies this
      ensures (Readings(), crashed) == Run(old(Readings()), stream)
      ensures KeepsReadings(old(Readings()), Readings())
    {
      crashed := false;
      var i := 0;
      while i < |stream| && !crashed
        invariant 0 <= i <= |stream|
        invariant !crashed ==> Run(Readings(), stream[i..]) == Run(old(Readings()), stream)
        invariant crashed ==> (Readings(), true) == Run(old(Readings()), stream)
      {
        assert stream[i..][0] == stream[i] && stream[i..][1..] == stream[i + 1..];
        crashed := HandleNotification(stream[i]);
        i := i + 1;
      }
      RunKeepsReadings(old(Readings()), stream);
    }

    method SendAction(payload: seq<u8>) returns (frame: seq<u8>)
      ensures frame == Frame(ACTION_TYPE, payload)
    {
      frame := Encode(ACTION_TYPE, payload);
    }

    method Tare() returns (frame: seq<u8>)
      ensures frame == [0xEF, 0xDD, 0x04, 0x00, 0x00, 0x00]
    {
      frame := Encode(TARE_TYPE, TARE_PAYLOAD);
      TareFrame();
    }

    method RequestSettings() returns (frame: seq<u8>)
      ensures frame == [0xEF, 0xDD, 0x06] + seq(16, _ => 0) + [0x00, 0x00]
    {
      frame := Encode(SETTINGS_TYPE, SETTINGS_PAYLOAD);
      SettingsRequestFrame();
    }

    method StartTimer() returns (frame: seq<u8>)
      ensures frame == [0xEF, 0xDD, 0x0D, 0x00, 0x00, 0x00, 0x00]
    {
      frame := SendAction(START_TIMER_ACTION);
      TimerActionFrames();
    }

    method StopTimer() returns (frame: seq<u8>)
      ensures frame == [0xEF, 0xDD, 0x0D, 0x00, 0x02, 0x00, 0x02]
    {
      frame := SendAction(STOP_TIMER_ACTION);
      TimerActionFrames();
    }

    method ResetTimer() returns (frame: seq<u8>)
      ensures frame == [0xEF, 0xDD, 0x0D, 0x00, 0x01, 0x00, 0x01]
    {
      frame := SendAction(RESET_TIMER_ACTION);
      TimerActionFrames();
    }

    method Ident() returns (frame: seq<u8>)
      ensures frame == [0xEF, 0xDD, 0x0B] + seq(15, _ => 0x2D) + [0x68, 0x3B]
    {
      frame := Encode(IDENT_TYPE, IDENT_PAYLOAD);
      IdentFrame();
    }

    method RequestHeartbeat() returns (frame: seq<u8>)
      ensures frame == [0xEF, 0xDD, 0x0C, 0x09, 0x00, 0x01, 0x01, 0x02, 0x02, 0x05, 0x03, 0x04, 0x15, 0x06]
    {
      frame := EncodeEventData(EVENT_PAYLOAD);
      EventSubscriptionFrame();
    }

    /** The writes of the connect handshake after subscribing: identify, then
        the event subscription. */
    method Handshake() returns (writes: seq<seq<u8>>)
      ensures |writes| == 2
      ensures writes[0] == [0xEF, 0xDD, 0x0B] + seq(15, _ => 0x2D) + [0x68, 0x3B]
      ensures writes[1] == [0xEF, 0xDD, 0x0C, 0x09, 0x00, 0x01, 0x01, 0x02, 0x02, 0x05, 0x03, 0x04, 0x15, 0x06]
    {
      var ident := Ident();
      var heartbeat := RequestHeartbeat();
      writes := [ident, heartbeat];
    }
  }
}
