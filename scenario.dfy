/** End-to-end runs of the hub, proved from the operations' contracts
    alone: the demo lifecycle, pruning of a dead session, a restart, and
    repeated start and pause. */
module Scenario {
  import opened Wrappers
  import opened Models
  import opened SessionLists
  import opened State
  import opened ChannelService
  import opened MessageService
  import opened WebSocket

  /** A fresh hub with one channel, created and then started. */
  method OpenStarted(name: string, id: ChannelId) returns (hub: Hub)
    ensures fresh(hub) && hub.Valid()
    ensures hub.live.Keys == {id} && hub.live[id].status == Active && hub.live[id].name == name
    ensures hub.live[id].settings == DefaultSettings
    ensures hub.store == hub.live
    ensures hub.conns == map[] && hub.messages == map[] && hub.clock == 2
  {
    hub := new Hub.Open(map[], map[], 0);
    var created := CreateChannel(hub, CreateChannelRequest(name, None, None), id, 1, true);
    assert hub.live.Keys == {id} && hub.clock == 1;
    var started := StartChannel(hub, id, 2, true);
  }

  /** Create "demo", start it, attach one session, publish "hello" (one
      delivery), stop it (the session is dropped), and publish again
      (refused: not active). */
  method DemoScenario() returns (published: Result<(BroadcastMessage, nat), HubError>,
                                 stopped: Result<Channel, HubError>,
                                 afterStop: Result<(BroadcastMessage, nat), HubError>)
    ensures published.Ok? && published.value.0.content == "hello" && published.value.1 == 1
    ensures stopped.Ok? && stopped.value.status == Stopped
    ensures afterStop == Err(ChannelNotActive)
  {
    var hub := OpenStarted("demo", 1);
    var attached := Attach(hub, 1, 7, 3, true);
    assert hub.conns[1] == [7];
    var everyone := (s: SessionId, e: WebSocketResponse) => true;
    published := Publish(hub, 1, BroadcastRequest("hello", Some(Broadcast)), 10, 4, true, everyone);
    SurvivorsAllReached([7], BroadcastEnvelope(published.value.0), everyone);
    assert hub.live[1].status == Active && hub.clock == 4 && 11 !in hub.messages;
    stopped := StopChannel(hub, 1, 5, true);
    assert hub.live[1].status == Stopped;
    afterStop := Publish(hub, 1, BroadcastRequest("hello again", None), 11, 6, true, everyone);
  }

  /** Attaching sessions 1, 2 and 3 to the one channel of a fresh hub. */
  method AttachThree(hub: Hub, id: ChannelId)
    requires hub.live.Keys == {id} && hub.live[id].status == Active && hub.conns == map[]
    modifies hub`conns
    ensures hub.conns == map[id := [1, 2, 3]]
  {
    assert SessionsOf(hub.conns, id) == [];
    var a1 := Attach(hub, id, 1, 3, true);
    assert SessionsOf(hub.conns, id) == [] + [1] == [1];
    var a2 := Attach(hub, id, 2, 3, true);
    assert SessionsOf(hub.conns, id) == [1] + [2] == [1, 2];
    var a3 := Attach(hub, id, 3, 3, true);
    assert SessionsOf(hub.conns, id) == [1, 2] + [3] == [1, 2, 3];
  }

  /** Three sessions, the write to the second fails: two deliveries, the
      second session is gone, and the next publish reaches the other two. */
  method PruneScenario() returns (first: nat, kept: seq<SessionId>, second: nat)
    ensures first == 2 && kept == [1, 3] && second == 2
  {
    var hub := OpenStarted("prune", 1);
    AttachThree(hub, 1);
    var secondFails := (s: SessionId, e: WebSocketResponse) => s != 2;
    var r1 := Publish(hub, 1, BroadcastRequest("one", None), 10, 4, true, secondFails);
    var envelope := BroadcastEnvelope(r1.value.0);
    assert [1, 2, 3][..2] == [1, 2] && [1, 2][..1] == [1] && [1][..0] == [];
    assert Survivors([1, 2, 3], envelope, secondFails) == [1, 3];
    first, kept := r1.value.1, hub.conns[1];
    assert hub.live[1].status == Active && hub.clock == 4 && 11 !in hub.messages;
    var everyone := (s: SessionId, e: WebSocketResponse) => true;
    var r2 := Publish(hub, 1, BroadcastRequest("two", None), 11, 5, true, everyone);
    SurvivorsAllReached([1, 3], BroadcastEnvelope(r2.value.0), everyone);
    second := r2.value.1;
  }

  /** Channel 1 started, channel 2 only created, channel 3 started and then
      stopped, every write committed. */
  method ThreeChannels() returns (hub: Hub, before: Channel)
    ensures fresh(hub) && hub.Valid()
    ensures before.status == Active && hub.store.Keys == {1, 2, 3} && hub.store[1] == before
    ensures hub.store[2].status == Created && hub.store[3].status == Stopped
  {
    hub := OpenStarted("live", 1);
    before := hub.live[1];
    assert hub.store.Keys == {1} && hub.store[1] == before;
    var c2 := CreateChannel(hub, CreateChannelRequest("idle", None, None), 2, 3, true);
    var c3 := CreateChannel(hub, CreateChannelRequest("gone", None, None), 3, 4, true);
    assert hub.store.Keys == {1, 2, 3} && hub.store[1] == before && hub.store[2].status == Created;
    StopThird(hub, before);
  }

  /** Starting and then stopping channel 3 of `ThreeChannels`. */
  method StopThird(hub: Hub, before: Channel)
    requires hub.Valid() && hub.clock == 4 && hub.live == hub.store
    requires hub.store.Keys == {1, 2, 3} && hub.store[1] == before && hub.store[2].status == Created
    modifies hub
    ensures hub.Valid()
    ensures hub.store.Keys == {1, 2, 3} && hub.store[1] == before
    ensures hub.store[2].status == Created && hub.store[3].status == Stopped
  {
    var s3 := StartChannel(hub, 3, 5, true);
    var t3 := StopChannel(hub, 3, 6, true);
  }

  /** A restart reloads the Active channel as it was saved, and neither the
      channel that was only created nor the stopped one. */
  method RestartScenario() returns (before: Channel, reloaded: map<ChannelId, Channel>)
    ensures before.status == Active
    ensures 1 in reloaded && reloaded[1] == before
    ensures 2 !in reloaded && 3 !in reloaded
  {
    var hub;
    hub, before := ThreeChannels();
    var restarted := new Hub.Open(hub.store, hub.messages, hub.clock);
    reloaded := restarted.live;
    ReloadKeepsResumable(hub.store, 1);
    ReloadKeepsResumable(hub.store, 2);
    ReloadKeepsResumable(hub.store, 3);
  }

  /** Starting twice leaves the channel Active, stamped by the second call. */
  method StartTwice(hub: Hub, id: ChannelId, t1: Timestamp, t2: Timestamp)
    returns (first: Result<Channel, HubError>, second: Result<Channel, HubError>)
    requires hub.Valid() && hub.clock <= t1 <= t2
    modifies hub
    ensures id in old(hub.live) ==>
              && second == Ok(Restamped(old(hub.live)[id], Active, t2))
              && first.Ok? && first.value.status == Active
              && id in hub.live && id in hub.store && hub.live[id] == hub.store[id] == second.value
    ensures id !in old(hub.live) ==> first == second == Err(ChannelNotFound)
  {
    first := StartChannel(hub, id, t1, true);
    second := StartChannel(hub, id, t2, true);
    if id in old(hub.live) {
      RestampTwice(old(hub.live)[id], Active, t1, t2);
    }
  }

  /** Pausing twice leaves the channel Paused, stamped by the second call. */
  method PauseTwice(hub: Hub, id: ChannelId, t1: Timestamp, t2: Timestamp)
    returns (first: Result<Channel, HubError>, second: Result<Channel, HubError>)
    requires hub.Valid() && hub.clock <= t1 <= t2
    modifies hub
    ensures id in old(hub.live) ==>
              && second == Ok(Restamped(old(hub.live)[id], Paused, t2))
              && first.Ok? && first.value.status == Paused
              && id in hub.live && id in hub.store && hub.live[id] == hub.store[id] == second.value
    ensures id !in old(hub.live) ==> first == second == Err(ChannelNotFound)
  {
    first := PauseChannel(hub, id, t1, true);
    second := PauseChannel(hub, id, t2, true);
    if id in old(hub.live) {
      RestampTwice(old(hub.live)[id], Paused, t1, t2);
    }
  }
}
