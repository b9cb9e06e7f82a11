/** The value types of the hub: channels with their lifecycle status and
    settings, broadcast messages, requests, and the envelope pushed to
    sessions. Identifiers are 128-bit numbers, clock readings are natural
    numbers, and a live session is known only by an opaque number. */
module Models {
  import opened Wrappers
  import opened Ints

  const UUID_LIMIT: int := 0x1_0000_0000_0000_0000_0000_0000_0000_0000

  type Uuid = x: nat | x < UUID_LIMIT
  type ChannelId = Uuid
  type MessageId = Uuid
  /** The identity of one live session (a transport connection). */
  type SessionId = nat
  /** A reading of the hub's clock. */
  type Timestamp = nat

  /** The four lifecycle states of a channel; no transition between them is guarded. */
  datatype ChannelStatus = Created | Active | Paused | Stopped

  datatype ChannelSettings = ChannelSettings(
    maxConnections: USize,
    allowClientMessages: bool,
    persistMessages: bool,
    rateLimitPerMinute: Option<U32>)

  /** `ChannelSettings::default()`. */
  const DefaultSettings := ChannelSettings(1000, true, false, Some(60))

  datatype Channel = Channel(
    id: ChannelId,
    name: string,
    description: Option<string>,
    status: ChannelStatus,
    createdAt: Timestamp,
    updatedAt: Timestamp,
    settings: ChannelSettings)

  /** The body of a create request; `settings`, when given, is taken whole. */
  datatype CreateChannelRequest = CreateChannelRequest(
    name: string,
    description: Option<string>,
    settings: Option<ChannelSettings>)

  /** `request.settings.unwrap_or_default()`: no per-field merge. */
  function EffectiveSettings(requested: Option<ChannelSettings>): ChannelSettings
  {
    match requested
    case Some(s) => s
    case None => DefaultSettings
  }

  lemma DefaultSettingsValues()
    ensures DefaultSettings.maxConnections == 1000
    ensures DefaultSettings.allowClientMessages && !DefaultSettings.persistMessages
    ensures DefaultSettings.rateLimitPerMinute == Some(60)
    ensures EffectiveSettings(None) == DefaultSettings
  {
  }

  /** Supplied settings replace the defaults wholesale, whatever they hold. */
  lemma SettingsAllOrNothing(s: ChannelSettings)
    ensures EffectiveSettings(Some(s)) == s
  {
  }

  datatype MessageType = Broadcast | System | ClientMessage | StatusUpdate

  datatype MessageSender = Server | Client(identifier: string) | SystemSender

  datatype BroadcastMessage = BroadcastMessage(
    id: MessageId,
    channelId: ChannelId,
    content: string,
    messageType: MessageType,
    sender: MessageSender,
    timestamp: Timestamp)

  /** The body of a publish request; `messageType` may be omitted. */
  datatype BroadcastRequest = BroadcastRequest(content: string, messageType: Option<MessageType>)

  /** The structured `data` a response may carry: the welcome payload of a
      new connection, or the echo of a relayed client text. */
  datatype Payload =
    | Welcome(channel: Channel, connectionId: Uuid)
    | ClientEcho(originalMessage: string, sender: string)

  /** The envelope written to sessions (serialised to JSON in the source). */
  datatype WebSocketResponse = WebSocketResponse(
    status: string,
    message: string,
    channelId: ChannelId,
    timestamp: Timestamp,
    data: Option<Payload>)
}
