/** The per-channel session lists of the connection registry and the two
    ways the source shrinks them: `retain` of the sessions other than one
    (detach), and the fan-out that keeps exactly the sessions a write
    reached (broadcast). */
module SessionLists {
  import opened Models

  /** `a` is `b` with some elements deleted, the rest in their order. */
  ghost predicate Subsequence(a: seq<SessionId>, b: seq<SessionId>)
    decreases |b|
  {
    || a == []
    || (b != [] &&
        (|| (a[|a| - 1] == b[|b| - 1] && Subsequence(a[..|a| - 1], b[..|b| - 1]))
         || Subsequence(a, b[..|b| - 1])))
  }

  /** The sessions of `sessions` whose write of `payload` succeeds, in order. */
  function Survivors<P>(sessions: seq<SessionId>, payload: P, write: (SessionId, P) -> bool): seq<SessionId>
  {
    if sessions == [] then []
    else
      var last := sessions[|sessions| - 1];
      Survivors(sessions[..|sessions| - 1], payload, write) + (if write(last, payload) then [last] else [])
  }

  /** `sessions.retain(|s| s != session)`, comparing sessions by identity. */
  function Without(sessions: seq<SessionId>, session: SessionId): seq<SessionId>
  {
    if sessions == [] then []
    else
      var last := sessions[|sessions| - 1];
      Without(sessions[..|sessions| - 1], session) + (if last != session then [last] else [])
  }

  /** The list a channel id stands for in the registry: absent means empty. */
  function SessionsOf(conns: map<ChannelId, seq<SessionId>>, id: ChannelId): seq<SessionId>
  {
    if id in conns then conns[id] else []
  }

  /** The whole registry after fanning `payload` out over channel `id`. */
  function FannedOut<P>(conns: map<ChannelId, seq<SessionId>>, id: ChannelId, payload: P,
                        write: (SessionId, P) -> bool): map<ChannelId, seq<SessionId>>
  {
    if id in conns then conns[id := Survivors(conns[id], payload, write)] else conns
  }

  /** Fan-out keeps exactly the sessions it reached, each as often as it was
      listed, in their original order, and never grows the list. */
  lemma {:induction false} SurvivorsSpec<P>(sessions: seq<SessionId>, payload: P, write: (SessionId, P) -> bool)
    ensures |Survivors(sessions, payload, write)| <= |sessions|
    ensures Subsequence(Survivors(sessions, payload, write), sessions)
    ensures forall s :: multiset(Survivors(sessions, payload, write))[s] ==
                          if write(s, payload) then multiset(sessions)[s] else 0
    decreases |sessions|
  {
    if sessions != [] {
      var init, last := sessions[..|sessions| - 1], sessions[|sessions| - 1];
      assert sessions == init + [last];
      SurvivorsSpec(init, payload, write);
      var r := Survivors(sessions, payload, write);
      if write(last, payload) {
        assert r[..|r| - 1] == Survivors(init, payload, write);
      } else {
        assert r == Survivors(init, payload, write);
      }
    }
  }

  /** Membership form of SurvivorsSpec: a session stays iff it was listed
      and its write succeeded. */
  lemma SurvivorsMembership<P>(sessions: seq<SessionId>, payload: P, write: (SessionId, P) -> bool, s: SessionId)
    ensures s in Survivors(sessions, payload, write) <==> s in sessions && write(s, payload)
  {
    SurvivorsSpec(sessions, payload, write);
    assert s in Survivors(sessions, payload, write) <==> multiset(Survivors(sessions, payload, write))[s] > 0;
  }

  /** When every write succeeds nothing is pruned. */
  lemma {:induction false} SurvivorsAllReached<P>(sessions: seq<SessionId>, payload: P, write: (SessionId, P) -> bool)
    requires forall i :: 0 <= i < |sessions| ==> write(sessions[i], payload)
    ensures Survivors(sessions, payload, write) == sessions
    decreases |sessions|
  {
    if sessions != [] {
      var init := sessions[..|sessions| - 1];
      SurvivorsAllReached(init, payload, write);
      assert sessions == init + [sessions[|sessions| - 1]];
    }
  }

  /** Detach removes every listing of the session and keeps every other
      listing, in order. */
  lemma {:induction false} WithoutSpec(sessions: seq<SessionId>, session: SessionId)
    ensures session !in Without(sessions, session)
    ensures Subsequence(Without(sessions, session), sessions)
    ensures forall s :: s != session ==> multiset(Without(sessions, session))[s] == multiset(sessions)[s]
    decreases |sessions|
  {
    if sessions != [] {
      var init, last := sessions[..|sessions| - 1], sessions[|sessions| - 1];
      assert sessions == init + [last];
      WithoutSpec(init, session);
      var r := Without(sessions, session);
      if last != session {
        assert r[..|r| - 1] == Without(init, session);
      } else {
        assert r == Without(init, session);
      }
    }
  }

  /** Detaching a session that is not listed changes nothing. */
  lemma {:induction false} WithoutAbsent(sessions: seq<SessionId>, session: SessionId)
    requires session !in sessions
    ensures Without(sessions, session) == sessions
    decreases |sessions|
  {
    if sessions != [] {
      var init := sessions[..|sessions| - 1];
      assert sessions == init + [sessions[|sessions| - 1]];
      WithoutAbsent(init, session);
    }
  }
}
