/** `MessageService::broadcast_message`: the server-side publish. */
module MessageService {
  import opened Wrappers
  import opened Models
  import opened SessionLists
  import opened State

  /** The message a publish builds: the requested channel and content,
      sender Server, and type Broadcast unless the request names one. */
  function ServerMessage(id: MessageId, channelId: ChannelId, request: BroadcastRequest, now: Timestamp): BroadcastMessage
  {
    var kind := if request.messageType.Some? then request.messageType.value else Broadcast;
    BroadcastMessage(id, channelId, request.content, kind, Server, now)
  }

  /** The envelope a publish fans out. */
  function BroadcastEnvelope(message: BroadcastMessage): WebSocketResponse
  {
    WebSocketResponse("broadcast", message.content, message.channelId, message.timestamp, None)
  }

  /** The envelope carries the content as its message, the message's channel
      and time, status "broadcast", and no data. */
  lemma EnvelopeCarriesMessage(id: MessageId, channelId: ChannelId, request: BroadcastRequest, now: Timestamp)
    ensures var e := BroadcastEnvelope(ServerMessage(id, channelId, request, now));
            e.status == "broadcast" && e.message == request.content && e.channelId == channelId
            && e.timestamp == now && e.data.None?
  {
  }

  /** Publish: an unknown channel fails with ChannelNotFound and a channel
      that is not Active with ChannelNotActive, both before any side effect.
      Otherwise the message is written to the message store when the channel
      persists messages (a failed write aborts before any fan-out), its
      envelope is fanned out over the channel's sessions, and the result is
      the message with the fan-out's count. */
  method Publish(hub: Hub, channelId: ChannelId, request: BroadcastRequest, id: MessageId, now: Timestamp,
                 committed: bool, write: (SessionId, WebSocketResponse) -> bool)
    returns (r: Result<(BroadcastMessage, nat), HubError>)
    requires hub.Valid() && hub.clock <= now && id !in hub.messages
    modifies hub
    ensures hub.Valid()
    ensures hub.live == old(hub.live) && hub.store == old(hub.store)
    ensures channelId !in old(hub.live) ==>
              r == Err(ChannelNotFound) && hub.conns == old(hub.conns) && hub.messages == old(hub.messages)
    ensures channelId in old(hub.live) && old(hub.live)[channelId].status != Active ==>
              r == Err(ChannelNotActive) && hub.conns == old(hub.conns) && hub.messages == old(hub.messages)
    ensures channelId in old(hub.live) && old(hub.live)[channelId].status == Active ==>
              var persist := old(hub.live)[channelId].settings.persistMessages;
              var message := ServerMessage(id, channelId, request, now);
              hub.clock == now &&
              if persist && !committed then
                r == Err(StoreFailure) && hub.conns == old(hub.conns) && hub.messages == old(hub.messages)
              else
                && hub.messages == (if persist then old(hub.messages)[id := message] else old(hub.messages))
                && hub.conns == FannedOut(old(hub.conns), channelId, BroadcastEnvelope(message), write)
                && r == Ok((message, |SessionsOf(hub.conns, channelId)|))
    ensures r.Ok? ==>
              && r.value.0.channelId == channelId && r.value.0.content == request.content
              && r.value.0.sender == Server && r.value.0.id == id
              && (request.messageType.None? ==> r.value.0.messageType == Broadcast)
              && r.value.1 <= |SessionsOf(old(hub.conns), channelId)|
  {
    var channel := hub.GetChannel(channelId);
    if channel.None? {
      return Err(ChannelNotFound);
    }
    if channel.value.status != Active {
      return Err(ChannelNotActive);
    }
    hub.clock := now;
    var message := ServerMessage(id, channelId, request, now);
    if channel.value.settings.persistMessages {
      var saved := hub.SaveMessage(message, committed);
      if saved.Fail? {
        return Err(saved.error);
      }
    }
    var envelope := BroadcastEnvelope(message);
    var sentCount := hub.BroadcastToChannel(channelId, envelope, write);
    r := Ok((message, sentCount));
  }
}
