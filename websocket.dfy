/** The decisions of the WebSocket route: the gate in front of attaching a
    session, and the reader loop that relays client text and detaches the
    session when the stream ends. Handshake, welcome message, pong and all
    writes are transport I/O; a write's success is the oracle `write`. */
module WebSocket {
  import opened Wrappers
  import opened Models
  import opened SessionLists
  import opened State

  /** What the handler answers: the upgrade, a 404 or 403 carrying an
      envelope, or the error of a failed handshake. */
  datatype AttachOutcome =
    | Attached
    | NotFound(response: WebSocketResponse)
    | Forbidden(response: WebSocketResponse)
    | HandshakeFailed

  /** The gate of `websocket_handler`: an unknown channel is refused with
      404, a channel that is not Active with 403, and only then is the
      handshake attempted (`upgraded` is its outcome); on success the
      session is appended to the channel's list. */
  method Attach(hub: Hub, channelId: ChannelId, session: SessionId, now: Timestamp, upgraded: bool)
    returns (r: AttachOutcome)
    modifies hub`conns
    ensures channelId !in hub.live ==>
              && r == NotFound(WebSocketResponse("error", "Channel not found", channelId, now, None))
              && hub.conns == old(hub.conns)
    ensures channelId in hub.live && hub.live[channelId].status != Active ==>
              && r == Forbidden(WebSocketResponse("denied", "Channel " + hub.live[channelId].name + " is not active",
                                                  channelId, now, None))
              && hub.conns == old(hub.conns)
    ensures channelId in hub.live && hub.live[channelId].status == Active ==>
              if upgraded then
                r == Attached && hub.conns == old(hub.conns)[channelId := SessionsOf(old(hub.conns), channelId) + [session]]
              else
                r == HandshakeFailed && hub.conns == old(hub.conns)
    ensures r.Attached? <==> channelId in hub.live && hub.live[channelId].status == Active && upgraded
  {
    var channel := hub.GetChannel(channelId);
    if channel.None? {
      return NotFound(WebSocketResponse("error", "Channel not found", channelId, now, None));
    }
    if channel.value.status != Active {
      return Forbidden(WebSocketResponse("denied", "Channel " + channel.value.name + " is not active",
                                         channelId, now, None));
    }
    if !upgraded {
      return HandshakeFailed;
    }
    hub.AddConnection(channelId, session);
    r := Attached;
  }

  /** The message built from a client's text frame. */
  function ClientTextMessage(id: MessageId, channelId: ChannelId, text: string, now: Timestamp): BroadcastMessage
  {
    BroadcastMessage(id, channelId, text, ClientMessage, Client("anonymous"), now)
  }

  /** The envelope a relayed client text is fanned out in. */
  function ClientEnvelope(channelName: string, message: BroadcastMessage, text: string): WebSocketResponse
  {
    WebSocketResponse("client_message", "Client message in " + channelName + ": " + text,
                      message.channelId, message.timestamp, Some(ClientEcho(text, "client")))
  }

  /** One inbound text frame: relayed only if the channel is still live and
      allows client messages (its status is not consulted). The message is
      written when the channel persists messages, a failed write is ignored,
      and the envelope goes to every session of the channel, the sender
      included. Returns the message built, if any. */
  method RelayClientText(hub: Hub, channelId: ChannelId, text: string, id: MessageId, now: Timestamp,
                         committed: bool, write: (SessionId, WebSocketResponse) -> bool)
    returns (relayed: Option<BroadcastMessage>)
    requires hub.Valid() && hub.clock <= now && id !in hub.messages
    modifies hub
    ensures hub.Valid() && old(hub.clock) <= hub.clock <= now
    ensures hub.live == old(hub.live) && hub.store == old(hub.store)
    ensures relayed.Some? <==> channelId in hub.live && hub.live[channelId].settings.allowClientMessages
    ensures relayed.None? ==> hub.conns == old(hub.conns) && hub.messages == old(hub.messages)
    ensures relayed.Some? ==>
              var channel := hub.live[channelId];
              var message := relayed.value;
              && message == ClientTextMessage(id, channelId, text, now)
              && message.messageType == ClientMessage && message.sender == Client("anonymous")
              && message.channelId == channelId && message.content == text
              && hub.messages == (if channel.settings.persistMessages && committed
                                  then old(hub.messages)[id := message] else old(hub.messages))
              && hub.conns == FannedOut(old(hub.conns), channelId, ClientEnvelope(channel.name, message, text), write)
  {
    var current := hub.GetChannel(channelId);
    if current.None? || !current.value.settings.allowClientMessages {
      return None;
    }
    hub.clock := now;
    var message := ClientTextMessage(id, channelId, text, now);
    if current.value.settings.persistMessages {
      var _ := hub.SaveMessage(message, committed);
    }
    var response := ClientEnvelope(current.value.name, message, text);
    var _ := hub.BroadcastToChannel(channelId, response, write);
    relayed := Some(message);
  }

  /** An item of the inbound stream. A text frame comes with what the
      environment supplies for it: a fresh message id, the clock reading
      and the outcome of its store write. Binary, pong, continuation and
      error items are `Other`. */
  datatype Frame =
    | Text(text: string, id: MessageId, at: Timestamp, committed: bool)
    | Ping
    | Close
    | Other

  /** How many frames the reader loop consumes: up to and including the
      first Close, or all of them. */
  function FramesRead(frames: seq<Frame>): (n: nat)
    ensures n <= |frames|
    ensures forall i :: 0 <= i < n - 1 ==> !frames[i].Close?
    ensures n < |frames| ==> n > 0 && frames[n - 1].Close?
  {
    if frames == [] then 0
    else if frames[0].Close? then 1
    else 1 + FramesRead(frames[1..])
  }

  /** Whether text arriving for `channelId` is relayed: the channel is live
      and allows client messages. */
  predicate RelaysText(live: map<ChannelId, Channel>, channelId: ChannelId)
  {
    channelId in live && live[channelId].settings.allowClientMessages
  }

  /** The two parts of the hub the reader loop changes. */
  datatype Tables = Tables(messages: map<MessageId, BroadcastMessage>, conns: map<ChannelId, seq<SessionId>>)

  /** The effect of one inbound frame: a relayed text frame puts its message
      when the channel persists and the write commits, and fans the client
      envelope out over the channel; every other frame changes nothing. */
  function AfterFrame(live: map<ChannelId, Channel>, channelId: ChannelId, frame: Frame,
                      write: (SessionId, WebSocketResponse) -> bool, t: Tables): Tables
  {
    if frame.Text? && RelaysText(live, channelId) then
      var channel := live[channelId];
      var message := ClientTextMessage(frame.id, channelId, frame.text, frame.at);
      Tables(if channel.settings.persistMessages && frame.committed then t.messages[frame.id := message] else t.messages,
             FannedOut(t.conns, channelId, ClientEnvelope(channel.name, message, frame.text), write))
    else t
  }

  /** The effect of a sequence of frames, applied in order. */
  function AfterFrames(live: map<ChannelId, Channel>, channelId: ChannelId, frames: seq<Frame>,
                       write: (SessionId, WebSocketResponse) -> bool, t: Tables): Tables
  {
    if frames == [] then t
    else AfterFrame(live, channelId, frames[|frames| - 1],
                    write, AfterFrames(live, channelId, frames[..|frames| - 1], write, t))
  }

  /** Reading one more frame applies that frame's effect. */
  lemma AfterFramesStep(live: map<ChannelId, Channel>, channelId: ChannelId, frames: seq<Frame>, k: nat,
                        write: (SessionId, WebSocketResponse) -> bool, t: Tables)
    requires k < |frames|
    ensures AfterFrames(live, channelId, frames[..k + 1], write, t) ==
            AfterFrame(live, channelId, frames[k], write, AfterFrames(live, channelId, frames[..k], write, t))
  {
    assert frames[..k + 1][..k] == frames[..k];
  }

  /** Every message the frames add was carried by one of their text frames. */
  lemma {:induction false} AfterFramesAddsOnlyTheirIds(live: map<ChannelId, Channel>, channelId: ChannelId,
                                                       frames: seq<Frame>, write: (SessionId, WebSocketResponse) -> bool,
                                                       t: Tables, k: MessageId)
    ensures k in AfterFrames(live, channelId, frames, write, t).messages ==>
              k in t.messages || exists i :: 0 <= i < |frames| && frames[i].Text? && frames[i].id == k
    decreases |frames|
  {
    if frames != [] {
      var init := frames[..|frames| - 1];
      AfterFramesAddsOnlyTheirIds(live, channelId, init, write, t, k);
      if exists i :: 0 <= i < |init| && init[i].Text? && init[i].id == k {
        var i :| 0 <= i < |init| && init[i].Text? && init[i].id == k;
        assert frames[i] == init[i];
      }
    }
  }

  /** A relayed text frame whose write commits on a persisting channel leaves
      its message stored, unless a later frame reuses its id. */
  lemma {:induction false} AfterFramesStoresPersisted(live: map<ChannelId, Channel>, channelId: ChannelId,
                                                      frames: seq<Frame>, write: (SessionId, WebSocketResponse) -> bool,
                                                      t: Tables, i: nat)
    requires i < |frames| && frames[i].Text? && frames[i].committed
    requires RelaysText(live, channelId) && live[channelId].settings.persistMessages
    requires forall j :: i < j < |frames| && frames[j].Text? ==> frames[j].id != frames[i].id
    ensures var r := AfterFrames(live, channelId, frames, write, t).messages;
            frames[i].id in r && r[frames[i].id] == ClientTextMessage(frames[i].id, channelId, frames[i].text, frames[i].at)
    decreases |frames|
  {
    var init := frames[..|frames| - 1];
    if i < |init| {
      assert forall j :: i < j < |init| ==> init[j] == frames[j];
      AfterFramesStoresPersisted(live, channelId, init, write, t, i);
    }
  }

  /** The frames of one channel leave the session lists of every other
      channel as they were. */
  lemma {:induction false} AfterFramesOtherChannels(live: map<ChannelId, Channel>, channelId: ChannelId,
                                                    frames: seq<Frame>, write: (SessionId, WebSocketResponse) -> bool,
                                                    t: Tables)
    ensures var r := AfterFrames(live, channelId, frames, write, t).conns;
            && (forall k :: k != channelId ==> (k in r <==> k in t.conns))
            && (forall k :: k != channelId && k in r ==> r[k] == t.conns[k])
    decreases |frames|
  {
    if frames != [] {
      AfterFramesOtherChannels(live, channelId, frames[..|frames| - 1], write, t);
    }
  }

  /** On a channel that does not relay text, no frame changes anything. */
  lemma {:induction false} AfterFramesSilent(live: map<ChannelId, Channel>, channelId: ChannelId,
                                             frames: seq<Frame>, write: (SessionId, WebSocketResponse) -> bool, t: Tables)
    requires !RelaysText(live, channelId)
    ensures AfterFrames(live, channelId, frames, write, t) == t
    decreases |frames|
  {
    if frames != [] {
      AfterFramesSilent(live, channelId, frames[..|frames| - 1], write, t);
    }
  }

  /** The environment's promises about a stream: fresh, distinct message
      ids and clock readings that do not go backwards. */
  ghost predicate FreshFrames(frames: seq<Frame>, messages: map<MessageId, BroadcastMessage>, clock: Timestamp)
  {
    && (forall i :: 0 <= i < |frames| && frames[i].Text? ==> frames[i].id !in messages && clock <= frames[i].at)
    && (forall i, j :: 0 <= i < j < |frames| && frames[i].Text? && frames[j].Text? ==>
          frames[i].id != frames[j].id && frames[i].at <= frames[j].at)
  }

  /** One iteration of the reader loop on a frame other than Close: a text
      frame is relayed, a ping only gets its pong, anything else is
      ignored. */
  method ReadFrame(hub: Hub, channelId: ChannelId, frame: Frame, write: (SessionId, WebSocketResponse) -> bool)
    requires hub.Valid() && !frame.Close?
    requires frame.Text? ==> frame.id !in hub.messages && hub.clock <= frame.at
    modifies hub
    ensures hub.Valid() && hub.live == old(hub.live) && hub.store == old(hub.store)
    ensures Tables(hub.messages, hub.conns) ==
            AfterFrame(hub.live, channelId, frame, write, Tables(old(hub.messages), old(hub.conns)))
    ensures old(hub.clock) <= hub.clock
    ensures frame.Text? ==> hub.clock <= frame.at
    ensures !frame.Text? ==> hub.clock == old(hub.clock)
  {
    match frame {
      case Text(text, id, at, committed) =>
        var _ := RelayClientText(hub, channelId, text, id, at, committed, write);
      case Ping =>
      case Other =>
    }
  }

  /** The spawned reader task: relays each text frame, ignores pings and
      other items, stops at Close or at the end of the stream, and then
      detaches its session. Its whole effect is `AfterFrames` over the frames
      read, followed by the detach. The channel registry and the channels
      table are never touched. The detach is the identity-based
      `RemoveConnection`; the source's own cleanup compares object addresses
      and leaves the session listed (see `RetainOtherObjectsKeepsAll`). */
  method ServeSession(hub: Hub, channelId: ChannelId, session: SessionId, frames: seq<Frame>,
                      write: (SessionId, WebSocketResponse) -> bool)
    returns (consumed: nat)
    requires hub.Valid() && FreshFrames(frames, hub.messages, hub.clock)
    modifies hub
    ensures hub.Valid()
    ensures consumed == FramesRead(frames)
    ensures hub.live == old(hub.live) && hub.store == old(hub.store)
    ensures var t := AfterFrames(old(hub.live), channelId, frames[..FramesRead(frames)], write,
                                 Tables(old(hub.messages), old(hub.conns)));
            && hub.messages == t.messages
            && hub.conns == (if channelId in t.conns then t.conns[channelId := Without(t.conns[channelId], session)]
                             else t.conns)
    ensures forall i :: FramesRead(frames) <= i < |frames| && frames[i].Text? ==> frames[i].id !in hub.messages
    ensures forall i :: 0 <= i < FramesRead(frames) && frames[i].Text? && frames[i].committed &&
                        RelaysText(old(hub.live), channelId) && old(hub.live)[channelId].settings.persistMessages ==>
              && frames[i].id in hub.messages
              && hub.messages[frames[i].id] == ClientTextMessage(frames[i].id, channelId, frames[i].text, frames[i].at)
    ensures forall k :: k != channelId ==> (k in hub.conns <==> k in old(hub.conns))
    ensures forall k :: k != channelId && k in hub.conns ==> hub.conns[k] == old(hub.conns)[k]
    ensures session !in SessionsOf(hub.conns, channelId)
  {
    consumed := ReadFrames(hub, channelId, frames, write);
    hub.RemoveConnection(channelId, session);
    ReadFramesOnly(frames, old(hub.live), channelId, write, Tables(old(hub.messages), old(hub.conns)), old(hub.clock));
    AfterFramesOtherChannels(old(hub.live), channelId, frames[..consumed], write, Tables(old(hub.messages), old(hub.conns)));
  }

  /** The `while let` loop of the reader task: every frame up to and
      including the first Close is read and has its effect. */
  method ReadFrames(hub: Hub, channelId: ChannelId, frames: seq<Frame>, write: (SessionId, WebSocketResponse) -> bool)
    returns (consumed: nat)
    requires hub.Valid() && FreshFrames(frames, hub.messages, hub.clock)
    modifies hub
    ensures hub.Valid()
    ensures consumed == FramesRead(frames)
    ensures hub.live == old(hub.live) && hub.store == old(hub.store)
    ensures Tables(hub.messages, hub.conns) ==
            AfterFrames(old(hub.live), channelId, frames[..consumed], write, Tables(old(hub.messages), old(hub.conns)))
  {
    consumed := 0;
    while consumed < |frames|
      invariant consumed <= |frames|
      invariant forall i :: 0 <= i < consumed ==> !frames[i].Close?
      invariant FramesRead(frames) == consumed + FramesRead(frames[consumed..])
      invariant hub.Valid()
      invariant hub.live == old(hub.live) && hub.store == old(hub.store)
      invariant FreshFrames(frames[consumed..], hub.messages, hub.clock)
      invariant Tables(hub.messages, hub.conns) ==
                AfterFrames(old(hub.live), channelId, frames[..consumed], write, Tables(old(hub.messages), old(hub.conns)))
    {
      var frame := frames[consumed];
      assert frames[consumed..][0] == frame;
      assert frames[consumed..][1..] == frames[consumed + 1..];
      AfterFramesStep(old(hub.live), channelId, frames, consumed, write, Tables(old(hub.messages), old(hub.conns)));
      consumed := consumed + 1;
      if frame.Close? {
        break;
      }
      ReadFrame(hub, channelId, frame, write);
    }
  }

  /** What the loop stores: the messages of the read, relayed, committed text
      frames of a persisting channel, and no message of an unread frame. */
  lemma ReadFramesOnly(frames: seq<Frame>, live: map<ChannelId, Channel>, channelId: ChannelId,
                       write: (SessionId, WebSocketResponse) -> bool, t: Tables, clock: Timestamp)
    requires FreshFrames(frames, t.messages, clock)
    ensures var r := AfterFrames(live, channelId, frames[..FramesRead(frames)], write, t).messages;
            forall i :: FramesRead(frames) <= i < |frames| && frames[i].Text? ==> frames[i].id !in r
    ensures var r := AfterFrames(live, channelId, frames[..FramesRead(frames)], write, t).messages;
            forall i :: 0 <= i < FramesRead(frames) && frames[i].Text? && frames[i].committed &&
                        RelaysText(live, channelId) && live[channelId].settings.persistMessages ==>
              frames[i].id in r && r[frames[i].id] == ClientTextMessage(frames[i].id, channelId, frames[i].text, frames[i].at)
  {
    var n := FramesRead(frames);
    var read := frames[..n];
    forall i | n <= i < |frames| && frames[i].Text?
      ensures frames[i].id !in AfterFrames(live, channelId, read, write, t).messages
    {
      AfterFramesAddsOnlyTheirIds(live, channelId, read, write, t, frames[i].id);
      assert forall j :: 0 <= j < |read| ==> read[j] == frames[j];
    }
    forall i | 0 <= i < n && frames[i].Text? && frames[i].committed &&
               RelaysText(live, channelId) && live[channelId].settings.persistMessages
      ensures var r := AfterFrames(live, channelId, read, write, t).messages;
              frames[i].id in r && r[frames[i].id] == ClientTextMessage(frames[i].id, channelId, frames[i].text, frames[i].at)
    {
      assert read[i] == frames[i];
      AfterFramesStoresPersisted(live, channelId, read, write, t, i);
    }
  }
}
