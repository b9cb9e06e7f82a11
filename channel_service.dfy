/** The lifecycle operations: create, start, pause, stop and list. None of
    them guards the transition it makes: any status may be overwritten by
    any other. */
module ChannelService {
  import opened Wrappers
  import opened Models
  import opened SessionLists
  import opened State

  /** `create_channel`: a channel with status Created under the fresh id
      `id`, the request's name and description taken as they are (an empty
      name is accepted), the request's settings whole or else the defaults.
      It is written to the store first and enters the live registry only if
      that write commits. */
  method CreateChannel(hub: Hub, request: CreateChannelRequest, id: ChannelId, now: Timestamp, committed: bool)
    returns (r: Result<Channel, HubError>)
    requires hub.Valid() && hub.clock <= now
    requires id !in hub.live && id !in hub.store
    modifies hub
    ensures hub.Valid() && hub.clock == now
    ensures hub.conns == old(hub.conns) && hub.messages == old(hub.messages)
    ensures r.Ok? <==> committed
    ensures r.Err? ==> r.error == StoreFailure && hub.live == old(hub.live) && hub.store == old(hub.store)
    ensures r.Ok? ==>
              var c := r.value;
              && c.id == id && c.status == Created
              && c.name == request.name && c.description == request.description
              && c.createdAt == now && c.updatedAt == now
              && (request.settings.Some? ==> c.settings == request.settings.value)
              && (request.settings.None? ==> c.settings == DefaultSettings)
              && hub.live == old(hub.live)[id := c]
              && hub.store == old(hub.store)[id := c]
  {
    hub.clock := now;
    var channel := Channel(id, request.name, request.description, Created, now, now,
                           EffectiveSettings(request.settings));
    var saved := hub.SaveChannel(channel, committed);
    if saved.Fail? {
      return Err(saved.error);
    }
    hub.live := hub.live[channel.id := channel];
    r := Ok(channel);
  }

  /** `start_channel`: sets Active from any status (Stopped included),
      refreshes `updatedAt` and writes the channel through, returning it.
      The live entry is updated before the write, so it stays Active even
      if the write fails. An unknown id fails with ChannelNotFound and
      changes nothing. */
  method StartChannel(hub: Hub, id: ChannelId, now: Timestamp, committed: bool)
    returns (r: Result<Channel, HubError>)
    requires hub.Valid() && hub.clock <= now
    modifies hub
    ensures hub.Valid()
    ensures hub.conns == old(hub.conns) && hub.messages == old(hub.messages)
    ensures id !in old(hub.live) ==>
              && r == Err(ChannelNotFound)
              && hub.live == old(hub.live) && hub.store == old(hub.store) && hub.clock == old(hub.clock)
    ensures id in old(hub.live) ==>
              var started := Restamped(old(hub.live)[id], Active, now);
              && hub.live == old(hub.live)[id := started] && hub.clock == now
              && hub.store == (if committed then old(hub.store)[id := started] else old(hub.store))
              && r == (if committed then Ok(started) else Err(StoreFailure))
  {
    if id in hub.live {
      hub.clock := now;
      var channel := Restamped(hub.live[id], Active, now);
      hub.live := hub.live[id := channel];
      var saved := hub.SaveChannel(channel, committed);
      if saved.Fail? {
        return Err(saved.error);
      }
      r := Ok(channel);
    } else {
      r := Err(ChannelNotFound);
    }
  }

  /** `pause_channel`: `update_channel_status(Paused)` then a lookup. Sets
      Paused from any status; an unknown id passes the update silently and
      then fails the lookup with ChannelNotFound, having changed nothing. */
  method PauseChannel(hub: Hub, id: ChannelId, now: Timestamp, committed: bool)
    returns (r: Result<Channel, HubError>)
    requires hub.Valid() && hub.clock <= now
    modifies hub
    ensures hub.Valid()
    ensures hub.conns == old(hub.conns) && hub.messages == old(hub.messages)
    ensures id !in old(hub.live) ==>
              && r == Err(ChannelNotFound)
              && hub.live == old(hub.live) && hub.store == old(hub.store) && hub.clock == old(hub.clock)
    ensures id in old(hub.live) ==>
              var paused := Restamped(old(hub.live)[id], Paused, now);
              && hub.live == old(hub.live)[id := paused] && hub.clock == now
              && hub.store == (if committed then old(hub.store)[id := paused] else old(hub.store))
              && r == (if committed then Ok(paused) else Err(StoreFailure))
  {
    var updated := hub.UpdateChannelStatus(id, Paused, now, committed);
    if updated.Fail? {
      return Err(updated.error);
    }
    var channel := hub.GetChannel(id);
    if channel.Some? {
      r := Ok(channel.value);
    } else {
      r := Err(ChannelNotFound);
    }
  }

  /** `stop_channel`: `update_channel_status(Stopped)`, then removal of the
      channel's whole session list (each session is then asked to close),
      then a lookup. The list goes even when the id is unknown, and the
      lookup then fails with ChannelNotFound; lists of other channels are
      untouched. A failed store write returns before any session is
      removed. */
  method StopChannel(hub: Hub, id: ChannelId, now: Timestamp, committed: bool)
    returns (r: Result<Channel, HubError>)
    requires hub.Valid() && hub.clock <= now
    modifies hub
    ensures hub.Valid()
    ensures hub.messages == old(hub.messages)
    ensures id !in old(hub.live) ==>
              && r == Err(ChannelNotFound)
              && hub.conns == old(hub.conns) - {id}
              && hub.live == old(hub.live) && hub.store == old(hub.store) && hub.clock == old(hub.clock)
    ensures id in old(hub.live) ==>
              var stopped := Restamped(old(hub.live)[id], Stopped, now);
              && hub.live == old(hub.live)[id := stopped] && hub.clock == now
              && hub.store == (if committed then old(hub.store)[id := stopped] else old(hub.store))
              && hub.conns == (if committed then old(hub.conns) - {id} else old(hub.conns))
              && r == (if committed then Ok(stopped) else Err(StoreFailure))
    ensures r.Ok? ==> SessionsOf(hub.conns, id) == []
  {
    var updated := hub.UpdateChannelStatus(id, Stopped, now, committed);
    if updated.Fail? {
      return Err(updated.error);
    }
    if id in hub.conns {
      hub.conns := hub.conns - {id};
    }
    var channel := hub.GetChannel(id);
    if channel.Some? {
      r := Ok(channel.value);
    } else {
      r := Err(ChannelNotFound);
    }
  }

  /** `list_channels`: every live channel exactly once, in the order the
      map yields them. */
  method ListChannels(hub: Hub) returns (channels: seq<Channel>)
    requires hub.Valid()
    ensures |channels| == |hub.live|
    ensures forall c :: c in channels <==> c in hub.live.Values
    ensures forall i, j :: 0 <= i < j < |channels| ==> channels[i].id != channels[j].id
  {
    channels := [];
    var pending := hub.live.Keys;
    while pending != {}
      invariant pending <= hub.live.Keys
      invariant |channels| + |pending| == |hub.live.Keys|
      invariant forall i :: 0 <= i < |channels| ==>
                  channels[i].id in hub.live && hub.live[channels[i].id] == channels[i] && channels[i].id !in pending
      invariant forall id :: id in hub.live && id !in pending ==> hub.live[id] in channels
      invariant forall i, j :: 0 <= i < j < |channels| ==> channels[i].id != channels[j].id
      decreases pending
    {
      var id :| id in pending;
      channels := channels + [hub.live[id]];
      pending := pending - {id};
    }
  }
}
