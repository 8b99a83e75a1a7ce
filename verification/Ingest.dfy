/**
Publishers and broadcast sessions: what the edge reports about connections, in any order and
any number of times, and the operator's stop.

Each method is one transaction. Times are in milliseconds.
*/
module Ingest {
  import opened Options

  datatype Key = Key(edge: string, id: string)

  datatype Stream = Stream(enabled: bool, credential: nat)

  datatype Connection = Connection(stream: string, connected: bool, lastSeen: int)

  datatype Session = Session(stream: string, connection: Key, ended: bool, stopped: bool, wanted: bool,
      stopAfter: Option<int>) {
    /** Neither ended, failed nor stopped by the operator. */
    predicate Live() {
      !ended && !stopped
    }
  }

  type Connections = map<Key, Connection>
  type Sessions = map<string, Session>

  /** `credential` is the one the publisher showed, where one was checked; `drawn` is the id a new session would get. */
  datatype Observation = Observation(
    key: Key, stream: string, protocol: string, connected: bool, seen: int, credential: Option<nat>, drawn: string)

  datatype StopResult = Stopped | Inactive | SourceConnected | SourceUnknown | NoSession

  const AHEAD := 5_000
  const FRESH := 10_000

  // ---------------------------------------------------------------- what always holds of the tables

  predicate Publishes(connections: Connections, k: Key, stream: string) {
    k in connections && connections[k].connected && connections[k].stream == stream
  }

  predicate OnePublisher(connections: Connections) {
    forall a, b | a in connections && b in connections && connections[a].connected && connections[b].connected
                  && connections[a].stream == connections[b].stream :: a == b
  }

  predicate Open(sessions: Sessions, s: string, stream: string) {
    s in sessions && sessions[s].stream == stream && !sessions[s].ended
  }

  /** The unique index: at most one session of a stream that is not ended. */
  predicate OneSession(sessions: Sessions) {
    forall a, b | a in sessions && b in sessions && !sessions[a].ended && !sessions[b].ended
                  && sessions[a].stream == sessions[b].stream :: a == b
  }

  /** A connection serves one stream and is bound to at most one session, ever. */
  predicate BoundOnce(connections: Connections, sessions: Sessions) {
    && (forall s | s in sessions ::
        sessions[s].connection in connections && connections[sessions[s].connection].stream == sessions[s].stream)
    && forall a, b | a in sessions && b in sessions && sessions[a].connection == sessions[b].connection :: a == b
  }

  predicate Sound(connections: Connections, sessions: Sessions) {
    OnePublisher(connections) && OneSession(sessions) && BoundOnce(connections, sessions)
  }

  /** A live session whose publisher is gone waits for it, and not for ever. */
  predicate Waiting(connections: Connections, sessions: Sessions) {
    forall s | s in sessions && sessions[s].Live() ::
      sessions[s].stopAfter.Some?
          || (sessions[s].connection in connections && connections[sessions[s].connection].connected)
  }

  // ---------------------------------------------------------------- what an observation meets

  predicate Admissible(streams: map<string, Stream>, connections: Connections, o: Observation, now: int) {
    && o.key.edge != "" && o.key.id != "" && (o.protocol == "srt" || o.protocol == "rtmp") && o.seen <= now + 5_000
    && o.stream in streams && streams[o.stream].enabled
    && (o.credential.Some? ==> o.credential.value == streams[o.stream].credential)
    && (o.key in connections ==> connections[o.key].stream == o.stream)
  }

  /** Older than what is known, or a connect of the same moment as a known disconnect. */
  predicate Stale(connections: Connections, o: Observation) {
    && o.key in connections
    && (o.seen < connections[o.key].lastSeen
        || (o.seen == connections[o.key].lastSeen && !connections[o.key].connected && o.connected))
  }

  predicate Contested(connections: Connections, o: Observation) {
    o.connected && exists k :: k in connections && k != o.key && Publishes(connections, k, o.stream)
  }

  /** The session the connection is bound to and that is over for it. */
  predicate Over(sessions: Sessions, s: string, key: Key) {
    s in sessions && sessions[s].connection == key && !sessions[s].Live()
  }

  predicate LiveOf(sessions: Sessions, s: string, stream: string) {
    s in sessions && sessions[s].stream == stream && sessions[s].Live()
  }

  /** A new session is needed but cannot be inserted: the stopped one of the stream has not ended yet. */
  predicate Blocked(sessions: Sessions, o: Observation) {
    && o.connected && (forall s | s in sessions :: !Over(sessions, s, o.key) && !LiveOf(sessions, s, o.stream))
    && (o.drawn in sessions || exists s :: s in sessions && Open(sessions, s, o.stream))
  }

  /** A session is new only if nothing was live for the stream, and its connection had no session before. */
  predicate OnlyNew(before: Sessions, after: Sessions, o: Observation) {
    forall s | s in after && s !in before ::
      && s == o.drawn && after[s] == Session(o.stream, o.key, false, false, true, None)
      && forall other | other in before :: before[other].connection != o.key && !LiveOf(before, other, o.stream)
  }

  /** A session that was ended or stopped stays exactly as it was, bound to the same connection. */
  predicate OverStays(before: Sessions, after: Sessions) {
    forall s | s in before ::
        s in after && (!before[s].Live() ==> after[s].connection == before[s].connection && !after[s].Live())
  }

  /** After a connect, the connection has a session: a live one, or the one that is over for it, and then nothing changed. */
  predicate Served(before: Sessions, after: Sessions, s: string, key: Key) {
    && s in after && after[s].connection == key
    && (after[s].Live() || (Over(before, s, key) && after == before))
  }

  predicate NoneStopped(before: Sessions, after: Sessions) {
    forall s | s in before && s in after :: after[s].stopped == before[s].stopped
  }

  /** A connect touches one session at most: a live one moves to the connection and waits no longer. */
  predicate MovesOnly(before: Sessions, after: Sessions, s: string, o: Observation) {
    && s in after && (forall other | other in before && other != s :: other in after && after[other] == before[other])
    && after.Keys <= before.Keys + {s}
    && (after[s].Live() ==> after[s].stopAfter.None? && after[s].connection == o.key)
    && (s in before ==>
        after[s] == if before[s].Live() then before[s].(stopAfter := None, connection := o.key) else before[s])
  }

  /** A disconnect touches one session at most: the one that has not ended begins to wait, if it does not wait yet. */
  predicate WaitsOnly(before: Sessions, after: Sessions, s: Option<string>, o: Observation, grace: int) {
    match s
    case None => after == before && forall other | other in before && before[other].connection == o.key ::
        before[other].ended
    case Some(id) =>
      && id in before && before[id].connection == o.key && !before[id].ended
      && after == before[id := before[id].(stopAfter :=
           if before[id].stopAfter.Some? then before[id].stopAfter else Some(o.seen + grace))]
  }

  lemma ConnectKeepsWaiting(connections: Connections, before: Sessions, after: Sessions, s: string, o: Observation)
    requires Waiting(connections, before) && MovesOnly(before, after, s, o) && o.connected
    ensures Waiting(connections[o.key := Connection(o.stream, o.connected, o.seen)], after)
  {
    var now := connections[o.key := Connection(o.stream, o.connected, o.seen)];
    forall x | x in after && after[x].Live()
      ensures after[x].stopAfter.Some? || (after[x].connection in now && now[after[x].connection].connected)
    {
      if x != s { assert x in before && after[x] == before[x]; }
    }
  }

  lemma DisconnectKeepsWaiting(connections: Connections, before: Sessions, after: Sessions, s: Option<string>,
      o: Observation, grace: int)
    requires Waiting(connections, before) && WaitsOnly(before, after, s, o, grace)
    requires forall a, b | a in before && b in before && before[a].connection == before[b].connection :: a == b
    ensures Waiting(connections[o.key := Connection(o.stream, o.connected, o.seen)], after)
  {
  }

  lemma SeenKeepsSound(connections: Connections, sessions: Sessions, o: Observation)
    requires Sound(connections, sessions) && (o.key in connections ==> connections[o.key].stream == o.stream)
    requires !Contested(connections, o)
    ensures Sound(connections[o.key := Connection(o.stream, o.connected, o.seen)], sessions)
  {
  }

  lemma MoveKeepsSound(connections: Connections, sessions: Sessions, s: string, o: Observation)
    requires Sound(connections, sessions) && o.key in connections && connections[o.key].stream == o.stream
    requires LiveOf(sessions, s, o.stream) && forall other | other in sessions :: !Over(sessions, other, o.key)
    ensures var after := sessions[s := sessions[s].(stopAfter := None, connection := o.key)];
            Sound(connections, after) && OnlyNew(sessions, after, o) && OverStays(sessions, after)
                && Served(sessions, after, s, o.key)
  {
    forall other | other in sessions && sessions[other].connection == o.key ensures other == s {
      assert !Over(sessions, other, o.key);
    }
  }

  lemma NewKeepsSound(connections: Connections, sessions: Sessions, o: Observation)
    requires Sound(connections, sessions) && o.key in connections && connections[o.key].stream == o.stream
              && o.drawn !in sessions
    requires forall other | other in sessions :: !Over(sessions, other, o.key) && !Open(sessions, other, o.stream)
    ensures var after := sessions[o.drawn := Session(o.stream, o.key, false, false, true, None)];
            Sound(connections, after) && OnlyNew(sessions, after, o) && OverStays(sessions, after)
                && Served(sessions, after, o.drawn, o.key)
  {
    forall other | other in sessions ensures sessions[other].connection != o.key && !LiveOf(sessions, other, o.stream) {
      assert !Over(sessions, other, o.key) && !Open(sessions, other, o.stream);
    }
  }

  lemma WaitKeepsSound(connections: Connections, sessions: Sessions, s: string, after: Session)
    requires Sound(connections, sessions) && s in sessions
    requires after.stream == sessions[s].stream && after.connection == sessions[s].connection
    requires (sessions[s].ended ==> after.ended) && (sessions[s].stopped ==> after.stopped)
    ensures Sound(connections, sessions[s := after]) && OverStays(sessions, sessions[s := after])
  {
  }

  // ---------------------------------------------------------------- over many transactions

  datatype Tables = Tables(connections: Connections, sessions: Sessions)

  /** Connections are never forgotten, keep their stream, and are never seen earlier than before. */
  predicate TimesAdvance(before: Connections, after: Connections) {
    forall k | k in before ::
        k in after && after[k].stream == before[k].stream && after[k].lastSeen >= before[k].lastSeen
  }

  /** A session is stopped only while nobody publishes to its stream. */
  ghost predicate StopsInSilence(before: Tables, after: Tables) {
    forall s, k | s in before.sessions && s in after.sessions && !before.sessions[s].stopped
        && after.sessions[s].stopped ::
      !Publishes(before.connections, k, before.sessions[s].stream)
  }

  /** What any one transaction does to the tables. */
  ghost predicate Follows(before: Tables, after: Tables) {
    && Sound(after.connections, after.sessions) && Waiting(after.connections, after.sessions)
    && OverStays(before.sessions, after.sessions) && TimesAdvance(before.connections, after.connections)
        && StopsInSilence(before, after)
  }

  ghost predicate History(past: seq<Tables>) {
    && past != [] && Sound(past[0].connections, past[0].sessions) && Waiting(past[0].connections, past[0].sessions)
    && forall i | 0 < i < |past| :: Follows(past[i - 1], past[i])
  }

  /** Over any observations, stops and endings, in any order: a connection is never seen earlier than before. */
  lemma {:induction false} TimesNeverGoBack(past: seq<Tables>, i: nat, j: nat)
    requires History(past) && i <= j < |past|
    ensures TimesAdvance(past[i].connections, past[j].connections)
  {
    hide Sound, OverStays, StopsInSilence;
    if i < j {
      TimesNeverGoBack(past, i, j - 1);
      assert Follows(past[j - 1], past[j]);
    }
  }

  /**
  And the connection of a session that was stopped, or is over, never starts another: the session
  stays over and bound to it, and at any later time is the only one bound to it.
  */
  lemma {:induction false} OverForGood(past: seq<Tables>, i: nat, j: nat, s: string)
    requires History(past) && i <= j < |past| && s in past[i].sessions && !past[i].sessions[s].Live()
    ensures s in past[j].sessions && !past[j].sessions[s].Live()
    ensures past[j].sessions[s].connection == past[i].sessions[s].connection
    ensures forall other | other in past[j].sessions
              && past[j].sessions[other].connection == past[i].sessions[s].connection :: other == s
  {
    if i < j {
      OverForGood(past, i, j - 1, s);
      assert Follows(past[j - 1], past[j]);
    } else if i > 0 {
      assert Follows(past[i - 1], past[i]);
    }
  }

  /** A session that is over for good, and nothing else; if it is stopped now, nobody publishes. */
  lemma OverFollows(before: Tables, s: string, after: Session)
    requires Sound(before.connections, before.sessions) && Waiting(before.connections, before.sessions)
              && s in before.sessions
    requires var was := before.sessions[s];
             after == was.(ended := after.ended, stopped := after.stopped, wanted := after.wanted)
             && (was.ended ==> after.ended) && (was.stopped ==> after.stopped) && (after.ended || after.stopped)
    requires !before.sessions[s].stopped && after.stopped ==>
               forall k | k in before.connections :: !Publishes(before.connections, k, after.stream)
    ensures Follows(before, before.(sessions := before.sessions[s := after]))
  {
    hide Sound, OverStays;
    WaitKeepsSound(before.connections, before.sessions, s, after);
  }

  lemma LastIsSound(past: seq<Tables>)
    requires History(past)
    ensures Sound(past[|past| - 1].connections, past[|past| - 1].sessions)
    ensures Waiting(past[|past| - 1].connections, past[|past| - 1].sessions)
  {
    if |past| > 1 { assert Follows(past[|past| - 2], past[|past| - 1]); }
  }

  class Store {
    var streams: map<string, Stream>
    var connections: Connections
    var sessions: Sessions
    var health: map<string, int>  // when a full snapshot of each edge last succeeded

    ghost var past: seq<Tables>  // the tables after each transaction

    ghost predicate Valid()
      reads this
    {
      History(past) && past[|past| - 1] == Tables(connections, sessions)
    }

    constructor ()
      ensures Valid() && connections == map[] && sessions == map[]
    {
      streams, connections, sessions, health := map[], map[], map[], map[];
      past := [Tables(map[], map[])];
    }

    ghost method Commit()
      requires History(past) && Follows(past[|past| - 1], Tables(connections, sessions))
      modifies this`past
      ensures Valid() && old(past) < past
    {
      hide Follows;
      past := past + [Tables(connections, sessions)];
    }

    method FindOther(o: Observation) returns (other: bool)
      ensures other <==> exists k :: k in connections && k != o.key && Publishes(connections, k, o.stream)
    {
      var left := connections.Keys;
      while left != {}
        invariant left <= connections.Keys
        invariant forall k | k in connections && k !in left && k != o.key :: !Publishes(connections, k, o.stream)
      {
        var k :| k in left;
        if k != o.key && Publishes(connections, k, o.stream) { return true; }
        left := left - {k};
      }
      other := false;
    }

    method FindOver(key: Key) returns (found: Option<string>)
      ensures found.Some? ==> Over(sessions, found.value, key)
      ensures found.None? ==> forall s | s in sessions :: !Over(sessions, s, key)
    {
      var left := sessions.Keys;
      while left != {}
        invariant left <= sessions.Keys && forall s | s in sessions && s !in left :: !Over(sessions, s, key)
      {
        var s :| s in left;
        if Over(sessions, s, key) { return Some(s); }
        left := left - {s};
      }
      found := None;
    }

    method FindOpen(stream: string) returns (found: Option<string>)
      ensures found.Some? ==> Open(sessions, found.value, stream)
      ensures found.None? ==> forall s | s in sessions :: !Open(sessions, s, stream)
    {
      var left := sessions.Keys;
      while left != {}
        invariant left <= sessions.Keys && forall s | s in sessions && s !in left :: !Open(sessions, s, stream)
      {
        var s :| s in left;
        if Open(sessions, s, stream) { return Some(s); }
        left := left - {s};
      }
      found := None;
    }

    /**
    One report about one connection. It is refused as a whole, changing nothing, or ignored as stale,
    or the connection takes its new state and the session follows: a connection whose session is over
    keeps it, a live session of the stream moves to the connection, and only else a new one starts.
    */
    method ObserveIngest(o: Observation, now: int, grace: int) returns (ok: bool, session: Option<string>)
      requires Valid()
      modifies this`connections, this`sessions, this`past
      ensures Valid() && old(past) <= past
      ensures ok <==> Admissible(streams, old(connections), o, now)
                      && (Stale(old(connections), o) || (!Contested(old(connections), o) && !Blocked(old(sessions), o)))
      ensures !ok || Stale(old(connections), o) ==> connections == old(connections) && sessions == old(sessions)
      ensures ok && !Stale(old(connections), o) ==>
                connections == old(connections)[o.key := Connection(o.stream, o.connected, o.seen)]
      ensures forall k | k in old(connections) ::
                k in connections && connections[k].lastSeen >= old(connections)[k].lastSeen
      ensures OnlyNew(old(sessions), sessions, o) && OverStays(old(sessions), sessions)
      ensures ok && o.connected && !Stale(old(connections), o) ==>
                && session.Some? && Served(old(sessions), sessions, session.value, o.key)
                && MovesOnly(old(sessions), sessions, session.value, o)
      ensures ok && !o.connected && !Stale(old(connections), o) ==>
                WaitsOnly(old(sessions), sessions, session, o, grace)
      ensures !o.connected ==> sessions.Keys == old(sessions.Keys)
    {
      hide OnePublisher, OneSession, BoundOnce, Publishes, Served, Session.Live, MovesOnly, WaitsOnly, Waiting;
      session := None;
      if o.key.edge == "" || o.key.id == "" || (o.protocol != "srt" && o.protocol != "rtmp")
          || o.seen > now + AHEAD { return false, None; }
      if o.stream !in streams || !streams[o.stream].enabled { return false, None; }
      if o.credential.Some? && o.credential.value != streams[o.stream].credential { return false, None; }
      if o.key in connections {
        var known := connections[o.key];
        if known.stream != o.stream { return false, None; }
        if o.seen < known.lastSeen
            || (o.seen == known.lastSeen && !known.connected && o.connected) { return true, None; }
      }
      if o.connected {
        var other := FindOther(o);
        if other { return false, None; }
      }
      LastIsSound(past);
      SeenKeepsSound(connections, sessions, o);
      var before := connections;
      connections := connections[o.key := Connection(o.stream, o.connected, o.seen)];
      if o.connected {
        ok, session := Bind(o);
        if !ok { connections := before; return; }
        ConnectKeepsWaiting(before, old(sessions), sessions, session.value, o);
      } else {
        BoundAreOne(before, sessions);
        session := Expect(o, grace);
        DisconnectKeepsWaiting(before, old(sessions), sessions, session, o, grace);
        ok := true;
      }
      Commit();
    }

    /** The session of a connection that has just been seen connected. */
    method Bind(o: Observation) returns (ok: bool, session: Option<string>)
      requires Sound(connections, sessions) && o.connected && o.key in connections
                && connections[o.key].stream == o.stream
      modifies this`sessions
      ensures Sound(connections, sessions) && NoneStopped(old(sessions), sessions)
      ensures ok <==> !Blocked(old(sessions), o)
      ensures !ok ==> sessions == old(sessions)
      ensures OnlyNew(old(sessions), sessions, o) && OverStays(old(sessions), sessions)
      ensures ok ==>
                && session.Some? && Served(old(sessions), sessions, session.value, o.key)
                && MovesOnly(old(sessions), sessions, session.value, o)
    {
      hide Sound, OnlyNew, OverStays;
      NothingNew(sessions, o);
      session := FindOver(o.key);
      if session.Some? { return true, session; }
      var open := FindOpen(o.stream);
      if open.Some? && !sessions[open.value].stopped {
        MoveKeepsSound(connections, sessions, open.value, o);
        sessions := sessions[open.value := sessions[open.value].(stopAfter := None, connection := o.key)];
        return true, open;
      }
      NoLiveBeside(connections, sessions, open, o.stream);
      if open.Some? || o.drawn in sessions { return false, None; }
      NewKeepsSound(connections, sessions, o);
      sessions := sessions[o.drawn := Session(o.stream, o.key, false, false, true, None)];
      return true, Some(o.drawn);
    }

    lemma BoundAreOne(connections: Connections, sessions: Sessions)
      requires Sound(connections, sessions)
      ensures forall a, b | a in sessions && b in sessions && sessions[a].connection == sessions[b].connection :: a == b
    {
    }

    lemma NothingNew(sessions: Sessions, o: Observation)
      ensures OnlyNew(sessions, sessions, o) && OverStays(sessions, sessions)
    {
    }

    lemma NoLiveBeside(connections: Connections, sessions: Sessions, open: Option<string>, stream: string)
      requires Sound(connections, sessions)
      requires if open.Some? then Open(sessions, open.value, stream) && sessions[open.value].stopped
               else forall s | s in sessions :: !Open(sessions, s, stream)
      ensures forall s | s in sessions :: !LiveOf(sessions, s, stream)
    {
      forall s | s in sessions && LiveOf(sessions, s, stream) ensures false { assert Open(sessions, s, stream); }
    }

    /** The session of a connection that is gone may wait for it a while; a wait that has begun is not begun again. */
    method Expect(o: Observation, grace: int) returns (session: Option<string>)
      requires Sound(connections, sessions) && o.key in connections && connections[o.key].stream == o.stream
      modifies this`sessions
      ensures Sound(connections, sessions) && NoneStopped(old(sessions), sessions)
      ensures WaitsOnly(old(sessions), sessions, session, o, grace)
      ensures OverStays(old(sessions), sessions) && OnlyNew(old(sessions), sessions, o)
                && sessions.Keys == old(sessions.Keys)
    {
      hide OnePublisher;
      session := FindOpen(o.stream);
      if session.None? || sessions[session.value].connection != o.key { return None; }
      var was := sessions[session.value];
      var waiting := was.(stopAfter := if was.stopAfter.Some? then was.stopAfter else Some(o.seen + grace));
      WaitKeepsSound(connections, sessions, session.value, waiting);
      sessions := sessions[session.value := waiting];
    }

    predicate Active(sessions: Sessions, id: string) {
      id in sessions && !sessions[id].ended && sessions[id].wanted
    }

    /** The edge was seen as a whole, and lately. */
    predicate Observed(edge: string, now: int)
      reads this`health
    {
      edge in health && health[edge] > now - 10_000
    }

    /** The operator ends a broadcast: only on a fresh, complete view of the edge, and only when nobody is connected. */
    method StopSession(id: string, now: int) returns (result: StopResult)
      requires Valid()
      modifies this`sessions, this`past
      ensures Valid() && old(past) <= past && OverStays(old(sessions), sessions)
      ensures result.NoSession? <==> id !in old(sessions)
      ensures result.Inactive? <==> id in old(sessions) && !Active(old(sessions), id)
      ensures result.SourceUnknown? <==> Active(old(sessions), id) && !Observed(old(sessions)[id].connection.edge, now)
      ensures result.SourceConnected? <==>
                && Active(old(sessions), id) && Observed(old(sessions)[id].connection.edge, now)
                && exists k :: k in connections && Publishes(connections, k, old(sessions)[id].stream)
      ensures sessions == if result.Stopped?
                then old(sessions)[id := old(sessions)[id].(stopped := true, wanted := false)] else old(sessions)
    {
      hide Sound, Waiting, TimesAdvance, StopsInSilence;
      LastIsSound(past);
      if id !in sessions { return NoSession; }
      var s := sessions[id];
      if s.ended || !s.wanted { return Inactive; }
      if s.connection.edge !in health || health[s.connection.edge] <= now - FRESH { return SourceUnknown; }
      var left := connections.Keys;
      while left != {}
        invariant left <= connections.Keys
        invariant forall k | k in connections && k !in left :: !Publishes(connections, k, s.stream)
      {
        var k :| k in left;
        if Publishes(connections, k, s.stream) { return SourceConnected; }
        left := left - {k};
      }
      OverFollows(past[|past| - 1], id, s.(stopped := true, wanted := false));
      sessions := sessions[id := s.(stopped := true, wanted := false)];
      Commit();
      result := Stopped;
    }

    /** The controller ends a session, or gives it up. */
    method EndSession(id: string, failed: bool)
      requires Valid() && id in sessions
      modifies this`sessions, this`past
      ensures Valid() && old(past) <= past && OverStays(old(sessions), sessions)
      ensures sessions == old(sessions)[id := old(sessions)[id].(ended := true, wanted := if failed then false
                else old(sessions)[id].wanted)]
    {
      hide Sound, OverStays;
      LastIsSound(past);
      var s := sessions[id];
      var over := s.(ended := true, wanted := if failed then false else s.wanted);
      OverFollows(past[|past| - 1], id, over);
      sessions := sessions[id := over];
      Commit();
    }
  }
}
