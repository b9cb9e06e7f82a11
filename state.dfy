/** The application state: the live channel registry, its mirror in the
    durable store (the `channels` and `messages` tables, holding values
    rather than JSON text), and the per-channel session lists. Locks and
    `await` are gone: each method is one atomic step. The outcome of a
    store transaction is the parameter `committed`; `Utc::now()` is the
    parameter `now`, never behind the hub's clock. */
module State {
  import opened Wrappers
  import opened Models
  import opened SessionLists

  /** The failures the core reports: the two user-visible ones and a store
      transaction that did not commit. */
  datatype HubError = ChannelNotFound | ChannelNotActive | StoreFailure

  /** Every channel record sits under its own id. */
  ghost predicate ChannelsKeyed(m: map<ChannelId, Channel>)
  {
    forall id :: id in m ==> m[id].id == id
  }

  ghost predicate MessagesKeyed(m: map<MessageId, BroadcastMessage>)
  {
    forall id :: id in m ==> m[id].id == id
  }

  /** Every channel was created no later than its last update, and neither
      lies ahead of the clock. */
  ghost predicate StampedBy(m: map<ChannelId, Channel>, clock: Timestamp)
  {
    forall id :: id in m ==> m[id].createdAt <= m[id].updatedAt <= clock
  }

  /** The statuses a restart brings back into the live registry. */
  predicate Resumable(status: ChannelStatus)
  {
    status == Active || status == Paused
  }

  /** The live registry a restart rebuilds from the channels table. */
  function Resurrected(table: map<ChannelId, Channel>): map<ChannelId, Channel>
  {
    map id | id in table && Resumable(table[id].status) :: table[id]
  }

  /** Reload keeps exactly the stored channels that were Active or Paused,
      each as it was stored. */
  lemma ReloadKeepsResumable(table: map<ChannelId, Channel>, id: ChannelId)
    ensures id in Resurrected(table) <==> id in table && Resumable(table[id].status)
    ensures id in Resurrected(table) ==> Resurrected(table)[id] == table[id]
  {
  }

  /** Saving a channel and restarting brings it back unchanged exactly when
      its saved status was Active or Paused. */
  lemma SaveThenReload(table: map<ChannelId, Channel>, channel: Channel)
    ensures channel.id in Resurrected(table[channel.id := channel]) <==> Resumable(channel.status)
    ensures Resumable(channel.status) ==> Resurrected(table[channel.id := channel])[channel.id] == channel
  {
  }

  /** A channel with its status overwritten and its update time refreshed. */
  function Restamped(channel: Channel, status: ChannelStatus, now: Timestamp): (r: Channel)
    ensures r.status == status && r.updatedAt == now
    ensures && r.id == channel.id && r.name == channel.name && r.description == channel.description
            && r.createdAt == channel.createdAt && r.settings == channel.settings
  {
    channel.(status := status, updatedAt := now)
  }

  /** Setting the same status twice yields that status, and the second
      stamp wins. */
  lemma RestampTwice(channel: Channel, status: ChannelStatus, t1: Timestamp, t2: Timestamp)
    ensures Restamped(Restamped(channel, status, t1), status, t2) == Restamped(channel, status, t2)
    ensures Restamped(Restamped(channel, status, t1), status, t2).status == status
  {
  }

  class Hub {
    var live: map<ChannelId, Channel>
    var store: map<ChannelId, Channel>
    var messages: map<MessageId, BroadcastMessage>
    var conns: map<ChannelId, seq<SessionId>>
    var clock: Timestamp

    ghost predicate Valid()
      reads this
    {
      && ChannelsKeyed(live) && ChannelsKeyed(store) && MessagesKeyed(messages)
      && StampedBy(live, clock) && StampedBy(store, clock)
    }

    /** `AppState::new` over an existing database: empty registries, then
        `load_active_channels`. */
    constructor Open(table: map<ChannelId, Channel>, stored: map<MessageId, BroadcastMessage>, now: Timestamp)
      requires ChannelsKeyed(table) && MessagesKeyed(stored) && StampedBy(table, now)
      ensures Valid()
      ensures store == table && messages == stored && conns == map[] && clock == now
      ensures live == Resurrected(table)
    {
      live, store, messages, conns, clock := map[], table, stored, map[], now;
      new;
      LoadActiveChannels();
      assert map[] + Resurrected(table) == Resurrected(table);
    }

    /** Scans the channels table and inserts every Active or Paused record
        into the live registry under its own id. */
    method LoadActiveChannels()
      requires Valid()
      modifies this`live
      ensures Valid()
      ensures live == old(live) + Resurrected(store)
    {
      var pending := store.Keys;
      ghost var seen: set<ChannelId> := {};
      while pending != {}
        invariant pending <= store.Keys && seen == store.Keys - pending
        invariant live == old(live) + map id | id in seen && Resumable(store[id].status) :: store[id]
        invariant Valid()
        decreases pending
      {
        var key :| key in pending;
        var channel := store[key];
        if Resumable(channel.status) {
          live := live[channel.id := channel];
        }
        pending, seen := pending - {key}, seen + {key};
      }
    }

    /** `save_channel`: a write-through put under the channel's own id. */
    method SaveChannel(channel: Channel, committed: bool) returns (r: Outcome<HubError>)
      requires Valid() && channel.createdAt <= channel.updatedAt <= clock
      modifies this`store
      ensures Valid()
      ensures r == if committed then Pass else Fail(StoreFailure)
      ensures store == if committed then old(store)[channel.id := channel] else old(store)
    {
      if committed {
        store := store[channel.id := channel];
        r := Pass;
      } else {
        r := Fail(StoreFailure);
      }
    }

    /** `save_message`: a write-through put under the message's own id. */
    method SaveMessage(message: BroadcastMessage, committed: bool) returns (r: Outcome<HubError>)
      requires Valid()
      modifies this`messages
      ensures Valid()
      ensures r == if committed then Pass else Fail(StoreFailure)
      ensures messages == if committed then old(messages)[message.id := message] else old(messages)
    {
      if committed {
        messages := messages[message.id := message];
        r := Pass;
      } else {
        r := Fail(StoreFailure);
      }
    }

    /** `get_channel`: a copy of the live entry, if any. */
    function GetChannel(id: ChannelId): (r: Option<Channel>)
      reads this
      ensures r.Some? <==> id in live
      ensures r.Some? ==> r.value == live[id]
    {
      if id in live then Some(live[id]) else None
    }

    /** `update_channel_status`: on a live channel, overwrites the status,
        refreshes `updatedAt` and writes the channel through; the in-memory
        change stays even when the write fails. An unknown id is a silent
        no-op. */
    method UpdateChannelStatus(id: ChannelId, status: ChannelStatus, now: Timestamp, committed: bool)
      returns (r: Outcome<HubError>)
      requires Valid() && clock <= now
      modifies this`live, this`store, this`clock
      ensures Valid()
      ensures id !in old(live) ==>
                r == Pass && live == old(live) && store == old(store) && clock == old(clock)
      ensures id in old(live) ==>
                var updated := Restamped(old(live)[id], status, now);
                && live == old(live)[id := updated]
                && store == (if committed then old(store)[id := updated] else old(store))
                && r == (if committed then Pass else Fail(StoreFailure))
                && old(live)[id].updatedAt <= updated.updatedAt
                && clock == now
    {
      if id in live {
        clock := now;
        var channel := Restamped(live[id], status, now);
        live := live[id := channel];
        r := SaveChannel(channel, committed);
      } else {
        r := Pass;
      }
    }

    /** `add_connection`: appends the session to the channel's list,
        creating the list if needed; no cap is applied. */
    method AddConnection(id: ChannelId, session: SessionId)
      modifies this`conns
      ensures conns == old(conns)[id := SessionsOf(old(conns), id) + [session]]
    {
      conns := conns[id := SessionsOf(conns, id) + [session]];
    }

    /** `remove_connection`, comparing sessions by identity: filters the
        session out of the channel's list. (The source compares addresses
        of two different clones, see `RetainOtherObjects` below.) */
    method RemoveConnection(id: ChannelId, session: SessionId)
      modifies this`conns
      ensures id in old(conns) ==> conns == old(conns)[id := Without(old(conns)[id], session)]
      ensures id !in old(conns) ==> conns == old(conns)
      ensures session !in SessionsOf(conns, id)
      ensures Subsequence(SessionsOf(conns, id), SessionsOf(old(conns), id))
    {
      if id in conns {
        WithoutSpec(conns[id], session);
        conns := conns[id := Without(conns[id], session)];
      }
    }

    /** `broadcast_to_channel`: writes `payload` to every session of the
        channel, keeps exactly those the write reached, and returns how
        many that is. A channel without a list yields 0. */
    method BroadcastToChannel<P>(id: ChannelId, payload: P, write: (SessionId, P) -> bool)
      returns (sentCount: nat)
      modifies this`conns
      ensures conns == FannedOut(old(conns), id, payload, write)
      ensures sentCount == |SessionsOf(conns, id)| <= |SessionsOf(old(conns), id)|
      ensures forall s :: s in SessionsOf(conns, id) <==> s in SessionsOf(old(conns), id) && write(s, payload)
    {
      sentCount := 0;
      if id in conns {
        var sessions := conns[id];
        var active: seq<SessionId> := [];
        var i := 0;
        while i < |sessions|
          invariant 0 <= i <= |sessions|
          invariant active == Survivors(sessions[..i], payload, write)
          invariant sentCount == |active|
        {
          assert sessions[..i + 1][..i] == sessions[..i];
          if write(sessions[i], payload) {
            sentCount := sentCount + 1;
            active := active + [sessions[i]];
          }
          i := i + 1;
        }
        assert sessions[..i] == sessions;
        SurvivorsSpec(sessions, payload, write);
        forall s ensures s in active <==> s in sessions && write(s, payload) {
          SurvivorsMembership(sessions, payload, write, s);
        }
        conns := conns[id := active];
      }
    }
  }

  // remove_connection as the source writes it. A `Session` is a handle and
  // every `clone()` is a separate object; `std::ptr::eq` compares the
  // addresses of two handles. `Handle(session, copy)` names one such object.
  datatype Handle = Handle(session: SessionId, copy: nat)

  /** `retain(|s| !std::ptr::eq(s, held))`: drops only the stored handle that
      is the very object the caller holds. */
  function RetainOtherObjects(stored: seq<Handle>, held: Handle): seq<Handle>
  {
    if stored == [] then []
    else RetainOtherObjects(stored[..|stored| - 1], held)
         + (if stored[|stored| - 1] != held then [stored[|stored| - 1]] else [])
  }

  /** The reader task holds its own clone, never one of the objects in the
      list, so the as-written retain removes nothing. */
  lemma {:induction false} RetainOtherObjectsKeepsAll(stored: seq<Handle>, held: Handle)
    requires forall i :: 0 <= i < |stored| ==> stored[i].copy != held.copy
    ensures RetainOtherObjects(stored, held) == stored
    decreases |stored|
  {
    if stored != [] {
      var init := stored[..|stored| - 1];
      assert stored == init + [stored[|stored| - 1]];
      RetainOtherObjectsKeepsAll(init, held);
    }
  }

  /** The handler pushes one clone of session 7 into the list and keeps
      another for cleanup; after the as-written cleanup session 7 is still
      listed, while the identity-based `Without` removes it. */
  lemma CleanupAsWrittenLeavesSession()
    ensures RetainOtherObjects([Handle(7, 1)], Handle(7, 2)) == [Handle(7, 1)]
    ensures Without([7], 7) == []
  {
    RetainOtherObjectsKeepsAll([Handle(7, 1)], Handle(7, 2));
    WithoutSpec([7], 7);
  }
}
