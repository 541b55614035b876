/** Routing of one raw notification by characteristic and leading byte, as
    both notification loops of the program do before decoding. */
module Notifications {
  import opened Protocol
  import opened Decoding

  /** The command/notification characteristic, written as the 16-bit short
      form 0x2A80 of its 128-bit UUID. Only equality of UUIDs is ever used, so
      the short form stands for the full one. */
  const CHARACTERISTIC_UUID: nat := 0x2A80

  /** One item of the transport's notification stream. */
  datatype Notification = Notification(uuid: nat, value: seq<u8>)

  /** Which decoder, if any, a notification is handed to, with its outcome. */
  datatype Route =
    | Ignored
    | SettingsFrame(settings: Result<Settings>)
    | EventFrame(message: Outcome<Message>)

  /** A leading 9 goes to the settings decoder and a leading 8 to the message
      decoder, each given the whole buffer; everything else is dropped. */
  function RouteNotification(n: Notification): (r: Route)
    ensures r.SettingsFrame? <==> n.uuid == CHARACTERISTIC_UUID && |n.value| > 0 && n.value[0] == 9
    ensures r.EventFrame? <==> n.uuid == CHARACTERISTIC_UUID && |n.value| > 0 && n.value[0] == 8
    ensures r.SettingsFrame? ==> r.settings == DecodeSettings(n.value)
    ensures r.EventFrame? ==> r.message == DecodeMessage(n.value)
  {
    if n.uuid != CHARACTERISTIC_UUID then Ignored
    else if |n.value| > 0 && n.value[0] == 9 then SettingsFrame(DecodeSettings(n.value))
    else if |n.value| > 0 && n.value[0] == 8 then EventFrame(DecodeMessage(n.value))
    else Ignored
  }

  /** A foreign characteristic, an empty buffer, or a leading byte other than
      8 and 9 is dropped without decoding. */
  lemma IgnoredNotifications(n: Notification)
    ensures RouteNotification(n).Ignored?
      <==> n.uuid != CHARACTERISTIC_UUID || |n.value| == 0 || (n.value[0] != 8 && n.value[0] != 9)
  {
  }

  /** A settings notification decodes only when it is exactly 11 bytes long. */
  lemma SettingsRouteLength(n: Notification)
    requires RouteNotification(n).SettingsFrame?
    ensures RouteNotification(n).settings.Ok? <==> |n.value| == 11
  {
  }

  /** The lone byte 8 on the characteristic reaches the message decoder, which
      reads the type byte past its end. */
  lemma LoneEventBytePanics()
    ensures RouteNotification(Notification(CHARACTERISTIC_UUID, [8]))
      == EventFrame(Panicked(MsgTypeOutOfBounds))
  {
  }
}
