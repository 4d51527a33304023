/** The hub's fan-out for one match (server/internal/matches/hub.go): publication in revision
    order, resnapshots, handshakes, presence notices and bounded queues. A connection also carries two history
    variables the hub does not store: every message it was ever sent, and whether one was
    ever dropped. */
module Hub {
  import opened Common

  const SEND_QUEUE_SIZE := 32
  const PENDING_LIMIT := 32

  type ConnectionId = nat

  /** A snapshot at revision `r` shows the first `r` committed events. */
  datatype Message<E> =
    | Connected(revision: int)
    | StateAt(revision: int, history: seq<E>)
    | EventAt(revision: int, event: E)
    | PresenceOf(user: UserId, online: bool)
    | Notice

  datatype Queued<E> = Queued(revision: int, event: E)

  // Where a connection's handler is: before its first snapshot, before markReady, after it.
  datatype Stage = Joining | Handshaking | Serving

  datatype Connection<E> = Connection(
    user: UserId,
    stage: Stage,
    ready: bool,
    pending: seq<Queued<E>>,
    presenceEnabled: bool,
    held: map<UserId, bool>,
    revision: int,
    queue: seq<Message<E>>,
    sent: seq<Message<E>>,
    dropped: bool)

  datatype Room<E> = Room(
    published: int,
    pendingEvents: map<int, E>,
    connections: map<ConnectionId, Connection<E>>)

  datatype EnqueueResult = Enqueued | Stale | Full | Invalid

  // ------------------------------------------------------------------ one connection's queue

  predicate HasRoom<E>(c: Connection<E>, n: nat) {
    SEND_QUEUE_SIZE - |c.queue| >= n
  }

  function Push<E>(c: Connection<E>, m: Message<E>): Connection<E> {
    c.(queue := c.queue + [m], sent := c.sent + [m])
  }

  function EnqueueState<E>(c: Connection<E>, m: Message<E>, revision: int): (EnqueueResult, Connection<E>) {
    if revision < 0 then (Invalid, c)
    else if revision < c.revision then (Stale, c)
    else if !HasRoom(c, 1) then (Full, c)
    else (Enqueued, Push(c, m).(revision := revision))
  }

  function EnqueueEvent<E>(c: Connection<E>, q: Queued<E>): (EnqueueResult, Connection<E>) {
    if q.revision <= 0 then (Invalid, c)
    else if q.revision <= c.revision then (Stale, c)
    else EnqueueState(c, EventAt(q.revision, q.event), q.revision)
  }

  function EnqueueInitial<E>(c: Connection<E>, revision: int, history: seq<E>): (bool, Connection<E>) {
    if revision < 0 || !HasRoom(c, 2) then (false, c)
    else (true, Push(Push(c, Connected(revision)), StateAt(revision, history)).(revision := revision))
  }

  function EnqueueErrorAndState<E>(c: Connection<E>, revision: int, history: seq<E>): (EnqueueResult, Connection<E>) {
    if revision < c.revision then (Stale, c)
    else if !HasRoom(c, 2) then (Full, c)
    else (Enqueued, Push(Push(c, Notice), StateAt(revision, history)).(revision := revision))
  }

  function EnqueuePresence<E>(c: Connection<E>, user: UserId, online: bool): (bool, Connection<E>) {
    if HasRoom(c, 1) then (true, Push(c, PresenceOf(user, online))) else (false, c)
  }

  predicate Failed(r: EnqueueResult) {
    r == Full || r == Invalid
  }

  // ----------------------------------------------------------------------------- publishing

  /** One published event reaches a connection: queued when it is ready, kept when it is not. */
  function Delivered<E>(c: Connection<E>, q: Queued<E>): Connection<E> {
    if c.ready then
      var (r, d) := EnqueueEvent(c, q);
      if Failed(r) then c.(dropped := true) else d
    else if |c.pending| >= PENDING_LIMIT then c.(dropped := true)
    else c.(pending := c.pending + [q])
  }

  predicate Refuses<E>(c: Connection<E>, q: Queued<E>) {
    if c.ready then Failed(EnqueueEvent(c, q).0) else |c.pending| >= PENDING_LIMIT
  }

  function DeliveredToAll<E>(connections: map<ConnectionId, Connection<E>>, q: Queued<E>): map<ConnectionId, Connection<E>> {
    map id | id in connections :: Delivered(connections[id], q)
  }

  function FlushOne<E>(room: Room<E>): Room<E>
    requires room.published + 1 in room.pendingEvents
  {
    var next := room.published + 1;
    Room(next, room.pendingEvents - {next}, DeliveredToAll(room.connections, Queued(next, room.pendingEvents[next])))
  }

  /** Publishes every consecutive event that is waiting. */
  function Flush<E>(room: Room<E>): Room<E>
    decreases |room.pendingEvents|
  {
    if room.published + 1 in room.pendingEvents then
      RemovalShrinks(room.pendingEvents, room.published + 1);
      Flush(FlushOne(room))
    else room
  }

  lemma RemovalShrinks<E>(m: map<int, E>, k: int)
    requires k in m
    ensures |m - {k}| < |m|
  {
    assert m.Keys == (m - {k}).Keys + {k};
    assert |m.Keys| == |(m - {k}).Keys| + 1;
  }

  function Published<E>(room: Room<E>, revision: int, event: E, limit: int): Room<E> {
    if revision <= 0 || revision > limit || revision <= room.published then room
    else if revision in room.pendingEvents then Flush(room)
    else Flush(room.(pendingEvents := room.pendingEvents[revision := event]))
  }

  // ------------------------------------------------------------------------------ presence

  /** A player came or went: a handshaking connection keeps the latest state, a ready one is told. */
  function Informed<E>(c: Connection<E>, user: UserId, online: bool): Connection<E> {
    if !c.presenceEnabled then c
    else if !c.ready then c.(held := c.held[user := online])
    else
      var (told, d) := EnqueuePresence(c, user, online);
      if told then d else c.(ready := false, dropped := true)
  }

  function InformedAll<E>(connections: map<ConnectionId, Connection<E>>, user: UserId, online: bool): map<ConnectionId, Connection<E>> {
    map id | id in connections :: Informed(connections[id], user, online)
  }

  predicate CannotBeTold<E>(c: Connection<E>) {
    c.presenceEnabled && c.ready && !HasRoom(c, 1)
  }

  // ---------------------------------------------------------------------------- handshakes

  /** A snapshot ahead of the watermark is first given to every ready peer behind it. */
  function Resnapshot<E>(c: Connection<E>, revision: int, history: seq<E>, known: set<UserId>): Connection<E> {
    if !c.ready || c.revision >= revision then c
    else if c.user !in known then c.(ready := false, dropped := true)
    else
      var (r, d) := EnqueueState(c, StateAt(revision, history), revision);
      if Failed(r) then c.(ready := false, dropped := true) else d
  }

  function ResnapshotPeers<E>(connections: map<ConnectionId, Connection<E>>, self: ConnectionId, revision: int, history: seq<E>, known: set<UserId>)
    : map<ConnectionId, Connection<E>>
  {
    map id | id in connections :: if id == self then connections[id] else Resnapshot(connections[id], revision, history, known)
  }

  /** The watermark moves up to the snapshot, older waiting events go, and the rest are flushed. */
  function Advance<E>(room: Room<E>, self: ConnectionId, revision: int, history: seq<E>, known: set<UserId>): Room<E> {
    var connections := if revision > room.published then ResnapshotPeers(room.connections, self, revision, history, known) else room.connections;
    Flush(Room(if revision > room.published then revision else room.published,
               map r | r in room.pendingEvents && r > revision :: room.pendingEvents[r], connections))
  }

  /** The first `n` kept events that the snapshot does not already show, queued in order. */
  function DrainPending<E>(c: Connection<E>, revision: int, n: nat): (bool, Connection<E>)
    requires n <= |c.pending|
  {
    if n == 0 then (true, c)
    else
      var (ok, d) := DrainPending(c, revision, n - 1);
      if !ok || c.pending[n - 1].revision <= revision then (ok, d)
      else
        var (r, e) := EnqueueEvent(d, c.pending[n - 1]);
        if Failed(r) then (false, d) else (true, e)
  }

  /** The first `n` held-back presence states, told in order until the queue is full. */
  function TellHeld<E>(c: Connection<E>, held: map<UserId, bool>, users: seq<UserId>, n: nat): (bool, Connection<E>)
    requires n <= |users| && forall i :: 0 <= i < n ==> users[i] in held
  {
    if n == 0 then (true, c)
    else
      var (ok, d) := TellHeld(c, held, users, n - 1);
      if ok then EnqueuePresence(d, users[n - 1], held[users[n - 1]]) else (false, d)
  }

  /** What a handshaking connection held back, sent when it becomes ready: events, then presence. */
  function CatchUp<E>(c: Connection<E>, revision: int): (bool, Connection<E>) {
    var (drained, d) := DrainPending(c, revision, |c.pending|);
    var users := Sorted(c.held.Keys);
    if drained then TellHeld(d, c.held, users, |users|) else (false, d)
  }

  datatype Marked<E> = Marked(ready: bool, stale: bool, room: Room<E>)

  function MarkReady<E>(room: Room<E>, self: ConnectionId, revision: int, history: seq<E>, known: set<UserId>): Marked<E> {
    if revision < room.published then Marked(false, true, room)
    else
      var after := Advance(room, self, revision, history, known);
      if self !in after.connections then Marked(true, false, after)
      else
        var c := after.connections[self];
        var (queued, d) := CatchUp(c, revision);
        Marked(queued, false,
               after.(connections := after.connections[self := d.(pending := [], held := map[], stage := Serving, ready := queued, dropped := d.dropped || !queued)]))
  }

  predicate ResnapshotFails<E>(c: Connection<E>, revision: int, history: seq<E>, known: set<UserId>) {
    c.ready && c.revision < revision && (c.user !in known || Failed(EnqueueState(c, StateAt(revision, history), revision).0))
  }

  // -------------------------------------------------------------------- who must be closed

  /** From `before` to `after`, exactly the connections in `slow` lost a message. */
  ghost predicate LostExactly<E>(before: map<ConnectionId, Connection<E>>, after: map<ConnectionId, Connection<E>>, slow: set<ConnectionId>) {
    && after.Keys == before.Keys && slow <= after.Keys
    && forall id :: id in after ==> (after[id].dropped <==> before[id].dropped || id in slow)
  }

  lemma LostInTurn<E>(a: map<ConnectionId, Connection<E>>, b: map<ConnectionId, Connection<E>>, c: map<ConnectionId, Connection<E>>,
                      first: set<ConnectionId>, second: set<ConnectionId>)
    requires LostExactly(a, b, first) && LostExactly(b, c, second)
    ensures LostExactly(a, c, first + second)
  {
  }

  lemma NobodyLost<E>(connections: map<ConnectionId, Connection<E>>)
    ensures LostExactly(connections, connections, {})
  {
  }

  lemma DeliveryLoses<E>(connections: map<ConnectionId, Connection<E>>, q: Queued<E>, slow: set<ConnectionId>)
    requires slow <= connections.Keys && forall id :: id in connections ==> (id in slow <==> Refuses(connections[id], q))
    ensures LostExactly(connections, DeliveredToAll(connections, q), slow)
  {
  }

  lemma ResnapshotLoses<E>(connections: map<ConnectionId, Connection<E>>, self: ConnectionId, revision: int, history: seq<E>, known: set<UserId>,
                           slow: set<ConnectionId>)
    requires slow <= connections.Keys
    requires forall id :: id in connections ==> (id in slow <==> id != self && ResnapshotFails(connections[id], revision, history, known))
    ensures LostExactly(connections, ResnapshotPeers(connections, self, revision, history, known), slow)
  {
  }

  lemma OneLost<E>(connections: map<ConnectionId, Connection<E>>, self: ConnectionId, c: Connection<E>, lost: bool)
    requires self in connections && c.dropped == (connections[self].dropped || lost)
    ensures LostExactly(connections, connections[self := c], if lost then {self} else {})
  {
  }

  lemma PresenceLoses<E>(connections: map<ConnectionId, Connection<E>>, user: UserId, online: bool, slow: set<ConnectionId>)
    requires slow <= connections.Keys && forall id :: id in connections ==> (id in slow <==> CannotBeTold(connections[id]))
    ensures LostExactly(connections, InformedAll(connections, user, online), slow)
  {
  }

  /** A loop over the connections has treated all but `rest`: it ends with `all`, having found `losers`. */
  ghost predicate Treated<E>(before: map<ConnectionId, Connection<E>>, all: map<ConnectionId, Connection<E>>, losers: set<ConnectionId>,
                             now: map<ConnectionId, Connection<E>>, rest: set<ConnectionId>, slow: set<ConnectionId>) {
    && rest <= before.Keys == all.Keys == now.Keys && slow == losers - rest
    && forall id :: id in before ==> now[id] == if id in rest then before[id] else all[id]
  }

  lemma TreatNone<E>(before: map<ConnectionId, Connection<E>>, all: map<ConnectionId, Connection<E>>, losers: set<ConnectionId>)
    requires all.Keys == before.Keys && losers <= before.Keys
    ensures Treated(before, all, losers, before, before.Keys, {})
  {
  }

  lemma TreatOne<E>(before: map<ConnectionId, Connection<E>>, all: map<ConnectionId, Connection<E>>, losers: set<ConnectionId>,
                    now: map<ConnectionId, Connection<E>>, rest: set<ConnectionId>, slow: set<ConnectionId>, id: ConnectionId)
    requires Treated(before, all, losers, now, rest, slow) && id in rest
    ensures id in before && id in now && id in all && now[id] == before[id]
    ensures Treated(before, all, losers, now[id := all[id]], rest - {id}, if id in losers then slow + {id} else slow)
  {
  }

  lemma TreatAll<E>(before: map<ConnectionId, Connection<E>>, all: map<ConnectionId, Connection<E>>, losers: set<ConnectionId>,
                    now: map<ConnectionId, Connection<E>>, slow: set<ConnectionId>)
    requires Treated(before, all, losers, now, {}, slow)
    ensures now == all && slow == losers
  {
  }

  lemma EventKeepsDropped<E>(c: Connection<E>, q: Queued<E>)
    ensures EnqueueEvent(c, q).1.dropped == c.dropped
  {
  }

  // ------------------------------------------------------------------ the hub's own loops

  /** The shared part of one match in the hub; its methods run under the hub's lock. */
  class HubMatch<E> {
    var publishedRevision: int
    var pendingEvents: map<int, E>
    var connections: map<ConnectionId, Connection<E>>

    function Value(): Room<E>
      reads this
    {
      Room(publishedRevision, pendingEvents, connections)
    }

    constructor ()
      ensures Value() == Room(0, map[], map[])
    {
      publishedRevision, pendingEvents, connections := 0, map[], map[];
    }

    /** Hands one event to every connection, in whatever order the map yields them, and
        remembers those that could not take it. */
    method Deliver(q: Queued<E>) returns (slow: set<ConnectionId>)
      modifies this`connections
      ensures connections == DeliveredToAll(old(connections), q)
      ensures slow <= connections.Keys == old(connections).Keys
      ensures forall id :: id in connections ==> (id in slow <==> Refuses(old(connections)[id], q))
    {
      hide Delivered, Refuses, Treated;
      slow := {};
      ghost var before := connections;
      ghost var all := DeliveredToAll(connections, q);
      ghost var losers := set id | id in connections && Refuses(connections[id], q);
      TreatNone(before, all, losers);
      var rest := connections.Keys;
      while rest != {}
        invariant Treated(before, all, losers, connections, rest, slow)
        decreases |rest|
      {
        var id :| id in rest;
        TreatOne(before, all, losers, connections, rest, slow, id);
        var next, refused := DeliverTo(connections[id], q);
        rest := rest - {id};
        connections := connections[id := next];
        if refused {
          slow := slow + {id};
        }
      }
      TreatAll(before, all, losers, connections, slow);
    }

    static method DeliverTo(connection: Connection<E>, q: Queued<E>) returns (next: Connection<E>, refused: bool)
      ensures next == Delivered(connection, q) && refused == Refuses(connection, q)
    {
      if connection.ready {
        var (result, after) := EnqueueEvent(connection, q);
        if Failed(result) {
          return connection.(dropped := true), true;
        }
        return after, false;
      }
      if |connection.pending| >= PENDING_LIMIT {
        return connection.(dropped := true), true;
      }
      return connection.(pending := connection.pending + [q]), false;
    }

    /** Exactly the connections that lose a message are handed to the caller, to be closed. */
    method FlushPublished() returns (slow: set<ConnectionId>)
      modifies this
      ensures Value() == Flush(old(Value()))
      ensures LostExactly(old(connections), connections, slow)
    {
      hide DeliveredToAll, LostExactly, Refuses;
      slow := {};
      NobodyLost(connections);
      while publishedRevision + 1 in pendingEvents
        invariant Flush(Value()) == Flush(old(Value()))
        invariant LostExactly(old(connections), connections, slow)
        decreases |pendingEvents|
      {
        var next := publishedRevision + 1;
        var event := pendingEvents[next];
        RemovalShrinks(pendingEvents, next);
        ghost var before := Value();
        pendingEvents := pendingEvents - {next};
        publishedRevision := next;
        var failed := Deliver(Queued(next, event));
        DeliveryLoses(before.connections, Queued(next, event), failed);
        LostInTurn(old(connections), before.connections, connections, slow, failed);
        slow := slow + failed;
        assert Value() == FlushOne(before);
      }
    }

    method Publish(revision: int, event: E, limit: int) returns (slow: set<ConnectionId>)
      modifies this
      ensures Value() == Published(old(Value()), revision, event, limit)
      ensures LostExactly(old(connections), connections, slow)
    {
      hide Flush, LostExactly;
      NobodyLost(connections);
      slow := {};
      if revision <= 0 || revision > limit || revision <= publishedRevision {
        return;
      }
      if revision !in pendingEvents {
        pendingEvents := pendingEvents[revision := event];
      }
      slow := FlushPublished();
    }

    method ResnapshotReadyPeers(self: ConnectionId, revision: int, history: seq<E>, known: set<UserId>) returns (slow: set<ConnectionId>)
      modifies this`connections
      ensures connections == ResnapshotPeers(old(connections), self, revision, history, known)
      ensures slow <= connections.Keys == old(connections).Keys
      ensures forall id :: id in connections ==>
        (id in slow <==> id != self && ResnapshotFails(old(connections)[id], revision, history, known))
    {
      hide Resnapshot, ResnapshotFails, Treated;
      slow := {};
      ghost var before := connections;
      ghost var all := ResnapshotPeers(connections, self, revision, history, known);
      ghost var losers := set id | id in connections && id != self && ResnapshotFails(connections[id], revision, history, known);
      TreatNone(before, all, losers);
      var rest := connections.Keys;
      while rest != {}
        invariant Treated(before, all, losers, connections, rest, slow)
        decreases |rest|
      {
        var id :| id in rest;
        TreatOne(before, all, losers, connections, rest, slow, id);
        var next, refused := connections[id], false;
        if id != self {
          next, refused := ResnapshotPeer(connections[id], revision, history, known);
        }
        rest := rest - {id};
        connections := connections[id := next];
        if refused {
          slow := slow + {id};
        }
      }
      TreatAll(before, all, losers, connections, slow);
    }

    static method ResnapshotPeer(existing: Connection<E>, revision: int, history: seq<E>, known: set<UserId>)
      returns (next: Connection<E>, refused: bool)
      ensures next == Resnapshot(existing, revision, history, known)
      ensures refused == ResnapshotFails(existing, revision, history, known)
    {
      if !existing.ready || existing.revision >= revision {
        return existing, false;
      }
      if existing.user !in known {
        return existing.(ready := false, dropped := true), true;
      }
      var (result, after) := EnqueueState(existing, StateAt(revision, history), revision);
      if Failed(result) {
        return existing.(ready := false, dropped := true), true;
      }
      return after, false;
    }

    /** Tells every connection that wants to know that a player came or went. */
    method PlayerPresenceChanged(user: UserId, online: bool) returns (slow: set<ConnectionId>)
      modifies this`connections
      ensures connections == InformedAll(old(connections), user, online)
      ensures LostExactly(old(connections), connections, slow)
    {
      hide Informed, CannotBeTold, LostExactly, Treated;
      slow := {};
      ghost var before := connections;
      ghost var all := InformedAll(connections, user, online);
      ghost var losers := set id | id in connections && CannotBeTold(connections[id]);
      TreatNone(before, all, losers);
      var rest := connections.Keys;
      while rest != {}
        invariant Treated(before, all, losers, connections, rest, slow)
        decreases |rest|
      {
        var id :| id in rest;
        TreatOne(before, all, losers, connections, rest, slow, id);
        var next, refused := Inform(connections[id], user, online);
        rest := rest - {id};
        connections := connections[id := next];
        if refused {
          slow := slow + {id};
        }
      }
      TreatAll(before, all, losers, connections, slow);
      PresenceLoses(before, user, online, slow);
    }

    static method Inform(connection: Connection<E>, user: UserId, online: bool) returns (next: Connection<E>, refused: bool)
      ensures next == Informed(connection, user, online) && refused == CannotBeTold(connection)
    {
      if !connection.presenceEnabled {
        return connection, false;
      }
      if !connection.ready {
        return connection.(held := connection.held[user := online]), false;
      }
      var (told, after) := EnqueuePresence(connection, user, online);
      if !told {
        return connection.(ready := false, dropped := true), true;
      }
      return after, false;
    }

    /** What the connection held back while it was handshaking, queued until it is full. */
    static method SendHeld(connection: Connection<E>, revision: int) returns (queued: bool, next: Connection<E>)
      ensures (queued, next) == CatchUp(connection, revision) && next.dropped == connection.dropped
    {
      hide EnqueueEvent, Failed;
      var pending := connection.pending;
      queued, next := true, connection;
      for i := 0 to |pending|
        invariant (queued, next) == DrainPending(connection, revision, i)
        invariant next.dropped == connection.dropped
      {
        if !queued || pending[i].revision <= revision {
          continue;
        }
        var (result, after) := EnqueueEvent(next, pending[i]);
        EventKeepsDropped(next, pending[i]);
        if Failed(result) {
          queued := false;
        } else {
          next := after;
        }
      }
      if !queued {
        return;
      }
      var held, users := connection.held, Sorted(connection.held.Keys);
      ghost var drained := next;
      for i := 0 to |users|
        invariant (queued, next) == TellHeld(drained, held, users, i)
        invariant next.dropped == connection.dropped
      {
        if queued {
          var (told, after) := EnqueuePresence(next, users[i], held[users[i]]);
          queued, next := told, after;
        }
      }
    }

    /** `markReady` for a connection whose last queued snapshot has this revision. */
    method Mark(self: ConnectionId, revision: int, history: seq<E>, known: set<UserId>)
      returns (ready: bool, stale: bool, slow: set<ConnectionId>)
      modifies this
      ensures Marked(ready, stale, Value()) == MarkReady(old(Value()), self, revision, history, known)
      ensures LostExactly(old(connections), connections, slow)
    {
      hide Flush, ResnapshotPeers, CatchUp, LostExactly, ResnapshotFails;
      NobodyLost(connections);
      slow := {};
      if revision < publishedRevision {
        return false, true, {};
      }
      ghost var before := Value();
      if revision > publishedRevision {
        slow := ResnapshotReadyPeers(self, revision, history, known);
        ResnapshotLoses(before.connections, self, revision, history, known, slow);
        publishedRevision := revision;
      }
      pendingEvents := map r | r in pendingEvents && r > revision :: pendingEvents[r];
      ghost var restated := connections;
      var refusing := FlushPublished();
      LostInTurn(before.connections, restated, connections, slow, refusing);
      slow := slow + refusing;
      assert Value() == Advance(before, self, revision, history, known);
      if self !in connections {
        return true, false, slow;
      }
      var connection := connections[self];
      var queued, next := SendHeld(connection, revision);
      var marked := next.(pending := [], held := map[], stage := Serving, ready := queued, dropped := next.dropped || !queued);
      OneLost(connections, self, marked, !queued);
      LostInTurn(before.connections, connections, connections[self := marked], slow, if queued then {} else {self});
      connections := connections[self := marked];
      slow := slow + if queued then {} else {self};
      return queued, false, slow;
    }
  }
}
