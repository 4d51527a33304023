/** The fan-out protocol over any interleaving of commits, publications, snapshot reads,
    handshakes, writes and disconnects: a connection that never lost a message is sent every
    event exactly once and in order. */
module HubProofs {
  import opened Common
  import opened Hub

  // ----------------------------------------------------------------- what a client holds

  /** A client that reads these messages: nothing before the first snapshot, then the events it
      has been shown; `Lost` as soon as an event is not the next one. */
  datatype Replica<E> = Waiting | Showing(history: seq<E>) | Lost

  function After<E>(r: Replica<E>, m: Message<E>): Replica<E> {
    match m
    case StateAt(_, history) => Showing(history)
    case EventAt(revision, event) => if r.Showing? && revision == |r.history| + 1 then Showing(r.history + [event]) else Lost
    case _ => r
  }

  function Read<E>(messages: seq<Message<E>>): Replica<E> {
    if messages == [] then Waiting else After(Read(messages[..|messages| - 1]), messages[|messages| - 1])
  }

  lemma {:induction false} ReadMore<E>(messages: seq<Message<E>>, m: Message<E>)
    ensures Read(messages + [m]) == After(Read(messages), m)
  {
    assert (messages + [m])[..|messages|] == messages;
  }

  /** At every moment of reading, what the client shows is a prefix of what was committed. */
  ghost predicate InOrder<E>(messages: seq<Message<E>>, committed: seq<E>) {
    messages == [] || (InOrder(messages[..|messages| - 1], committed) && Shows(Read(messages), committed))
  }

  ghost predicate Shows<E>(r: Replica<E>, committed: seq<E>) {
    match r
    case Waiting => true
    case Showing(history) => history <= committed
    case Lost => false
  }

  lemma {:induction false} InOrderGrows<E>(messages: seq<Message<E>>, committed: seq<E>, event: E)
    requires InOrder(messages, committed)
    ensures InOrder(messages, committed + [event])
  {
    hide Read;
    if messages != [] {
      InOrderGrows(messages[..|messages| - 1], committed, event);
    }
  }

  lemma {:induction false} InOrderThroughout<E>(messages: seq<Message<E>>, committed: seq<E>, n: nat)
    requires InOrder(messages, committed) && n <= |messages|
    ensures Shows(Read(messages[..n]), committed)
  {
    if n == |messages| {
      assert messages[..n] == messages;
    } else {
      assert messages[..|messages| - 1][..n] == messages[..n];
      InOrderThroughout(messages[..|messages| - 1], committed, n);
    }
  }

  // ------------------------------------------------------------------------- the protocol

  // How far a readiness step has come: flushing, sending kept events, or telling kept presence.
  datatype Progress = Flushing | Sending(i: nat) | Telling(i: nat)

  /** A readiness step on its way, with the hub's lock held: whose it is, its snapshot's revision,
      how many kept events the connection had when it began, and how far it has come. */
  datatype Marking = Marking(id: ConnectionId, revision: nat, kept: nat, progress: Progress)

  /** One match: its room while any connection exists, everything committed so far, and the
      readiness step on its way, if any. */
  datatype World<E> = World(room: Option<Room<E>>, committed: seq<E>, marking: Option<Marking>)

  datatype Step<E> =
    | Commit(event: E)
    | Register(id: ConnectionId, user: UserId, presenceEnabled: bool)
    | Initial(id: ConnectionId, revision: nat)
    | Restate(id: ConnectionId, revision: nat)
    | ErrorAndState(id: ConnectionId, revision: nat)
    | Mark(id: ConnectionId, known: set<UserId>)
    | MarkClosed(id: ConnectionId, revision: nat, known: set<UserId>)
    | MarkBegin(id: ConnectionId, known: set<UserId>)
    | MarkMore
    | Publish(revision: nat)
    | Arrive(revision: nat)
    | FlushNext
    | Announce(user: UserId, online: bool)
    | Note(id: ConnectionId)
    | Write(id: ConnectionId)
    | Close(id: ConnectionId)

  function NewConnection<E>(user: UserId, presenceEnabled: bool): Connection<E> {
    Connection(user, Joining, false, [], presenceEnabled, map[], 0, [], [], false)
  }

  function Room0<E>(w: World<E>): Room<E> {
    if w.room.Some? then w.room.value else Room(0, map[], map[])
  }

  function Start<E>(): World<E> {
    World(None, [], None)
  }

  predicate Has<E>(w: World<E>, id: ConnectionId) {
    w.room.Some? && id in w.room.value.connections
  }

  // A readiness step on its way keeps the hub's lock; its own handler does nothing else.
  predicate IsMarking<E>(w: World<E>, id: ConnectionId) {
    w.marking.Some? && w.marking.value.id == id
  }

  /** When a step can happen. A snapshot read shows a prefix of what is committed; only
      committed events are published; a handler marks its connection ready with the revision of
      its own last snapshot, even when the connection has been closed meanwhile. A publication
      may also arrive and flush one event at a time, with anything in between, and a readiness
      step may go message by message, with anything in between that does without the hub's lock. */
  predicate Enabled<E>(w: World<E>, s: Step<E>, limit: nat) {
    match s
    case Commit(_) => |w.committed| < limit
    case Register(id, _, _) => w.marking.None? && !Has(w, id)
    case Initial(id, revision) => Has(w, id) && revision <= |w.committed| && w.room.value.connections[id].stage == Joining
    case Restate(id, revision) =>
      Has(w, id) && revision <= |w.committed| && w.room.value.connections[id].stage != Joining && !IsMarking(w, id)
    case ErrorAndState(id, revision) => Has(w, id) && revision <= |w.committed| && w.room.value.connections[id].stage == Serving
    case Mark(id, _) => w.marking.None? && Has(w, id) && w.room.value.connections[id].stage == Handshaking
    case MarkClosed(id, revision, _) => w.marking.None? && w.room.Some? && !Has(w, id) && revision <= |w.committed|
    case MarkBegin(id, _) => w.marking.None? && Has(w, id) && w.room.value.connections[id].stage == Handshaking
    case MarkMore => w.marking.Some? && Has(w, w.marking.value.id)
    case Publish(revision) => w.marking.None? && 1 <= revision <= |w.committed|
    case Arrive(revision) => w.marking.None? && 1 <= revision <= |w.committed|
    case FlushNext => w.marking.None? && w.room.Some? && w.room.value.published + 1 in w.room.value.pendingEvents
    case Announce(_, _) => w.marking.None?
    case Note(id) => Has(w, id)
    case Write(id) => Has(w, id) && w.room.value.connections[id].queue != []
    case Close(id) => w.marking.None? && Has(w, id)
  }

  function Noted<E>(c: Connection<E>): Connection<E> {
    if HasRoom(c, 1) then Push(c, Notice) else c.(dropped := true)
  }

  // A publication up to its flush.
  function Arrived<E>(room: Room<E>, revision: int, event: E, limit: int): Room<E> {
    if revision <= 0 || revision > limit || revision <= room.published || revision in room.pendingEvents then room
    else room.(pendingEvents := room.pendingEvents[revision := event])
  }

  function Updated<E>(w: World<E>, id: ConnectionId, c: Connection<E>): World<E>
    requires w.room.Some?
  {
    w.(room := Some(w.room.value.(connections := w.room.value.connections[id := c])))
  }

  // The room just before the flush inside `markReady`.
  function Raised<E>(room: Room<E>, self: ConnectionId, revision: int, history: seq<E>, known: set<UserId>): Room<E> {
    Room(if revision > room.published then revision else room.published,
         map r | r in room.pendingEvents && r > revision :: room.pendingEvents[r],
         if revision > room.published then ResnapshotPeers(room.connections, self, revision, history, known) else room.connections)
  }

  // The readiness step comes to its end.
  function Finished<E>(w: World<E>, c: Connection<E>, queued: bool): World<E>
    requires w.marking.Some? && w.room.Some?
  {
    Updated(w, w.marking.value.id,
            c.(pending := [], held := map[], stage := Serving, ready := queued, dropped := c.dropped || !queued)).(marking := None)
  }

  /** The next message of the readiness step on its way: an event flushed to everybody, a kept event
      or a kept presence state sent to the connection, or its end. */
  function MarkedMore<E>(w: World<E>): World<E>
    requires w.marking.Some? && Has(w, w.marking.value.id)
  {
    var m, room := w.marking.value, w.room.value;
    var c, users := room.connections[m.id], Sorted(room.connections[m.id].held.Keys);
    match m.progress
    case Flushing =>
      if room.published + 1 in room.pendingEvents then w.(room := Some(FlushOne(room))) else w.(marking := Some(m.(progress := Sending(0))))
    case Sending(i) =>
      if i >= |c.pending| then w.(marking := Some(m.(progress := Telling(0))))
      else if c.pending[i].revision <= m.revision then w.(marking := Some(m.(progress := Sending(i + 1))))
      else
        var (r, d) := EnqueueEvent(c, c.pending[i]);
        if Failed(r) then Finished(w, c, false) else Updated(w, m.id, d).(marking := Some(m.(progress := Sending(i + 1))))
    case Telling(i) =>
      if i >= |users| then Finished(w, c, true)
      else
        var (told, d) := EnqueuePresence(c, users[i], c.held[users[i]]);
        if told then Updated(w, m.id, d).(marking := Some(m.(progress := Telling(i + 1)))) else Finished(w, c, false)
  }

  function Next<E>(w: World<E>, s: Step<E>, limit: nat): World<E>
    requires Enabled(w, s, limit)
  {
    match s
    case Commit(event) => w.(committed := w.committed + [event])
    case Register(id, user, presenceEnabled) =>
      w.(room := Some(Room0(w).(connections := Room0(w).connections[id := NewConnection(user, presenceEnabled)])))
    case Initial(id, revision) =>
      var c := w.room.value.connections[id];
      var (queued, d) := EnqueueInitial(c, revision, w.committed[..revision]);
      Updated(w, id, if queued then d.(stage := Handshaking) else c.(dropped := true))
    case Restate(id, revision) =>
      var c := w.room.value.connections[id];
      var (r, d) := EnqueueState(c, StateAt(revision, w.committed[..revision]), revision);
      Updated(w, id, if Failed(r) then c.(dropped := true) else d)
    case ErrorAndState(id, revision) =>
      var c := w.room.value.connections[id];
      var (r, d) := EnqueueErrorAndState(c, revision, w.committed[..revision]);
      Updated(w, id, if Failed(r) then c.(dropped := true) else d)
    case Mark(id, known) =>
      var revision := w.room.value.connections[id].revision;
      if 0 <= revision <= |w.committed| then
        w.(room := Some(MarkReady(w.room.value, id, revision, w.committed[..revision], known).room))
      else w
    case MarkClosed(id, revision, known) =>
      w.(room := Some(MarkReady(w.room.value, id, revision, w.committed[..revision], known).room))
    case MarkBegin(id, known) =>
      var c := w.room.value.connections[id];
      if 0 <= c.revision <= |w.committed| && c.revision >= w.room.value.published then
        World(Some(Raised(w.room.value, id, c.revision, w.committed[..c.revision], known)), w.committed,
              Some(Marking(id, c.revision, |c.pending|, Flushing)))
      else w
    case MarkMore => MarkedMore(w)
    case Publish(revision) =>
      if w.room.None? then w else w.(room := Some(Published(w.room.value, revision, w.committed[revision - 1], limit)))
    case Arrive(revision) =>
      if w.room.None? then w else w.(room := Some(Arrived(w.room.value, revision, w.committed[revision - 1], limit)))
    case FlushNext => w.(room := Some(FlushOne(w.room.value)))
    case Announce(user, online) =>
      if w.room.None? then w
      else w.(room := Some(w.room.value.(connections := InformedAll(w.room.value.connections, user, online))))
    case Note(id) => Updated(w, id, Noted(w.room.value.connections[id]))
    case Write(id) =>
      var c := w.room.value.connections[id];
      Updated(w, id, c.(queue := c.queue[1..]))
    case Close(id) =>
      var rest := w.room.value.connections - {id};
      w.(room := if rest == map[] then None else Some(w.room.value.(connections := rest)))
  }

  // --------------------------------------------------------------------------- invariants

  ghost predicate PendingFits<E>(c: Connection<E>, published: int, committed: seq<E>) {
    forall k :: 0 <= k < |c.pending| ==>
      1 <= c.pending[k].revision <= published && c.pending[k].revision <= |committed|
      && c.pending[k].event == committed[c.pending[k].revision - 1]
  }

  ghost predicate QueueFits<E>(queue: seq<Message<E>>, sent: seq<Message<E>>) {
    |queue| <= |sent| && |queue| <= SEND_QUEUE_SIZE && queue == sent[|sent| - |queue|..]
  }

  /** A connection that never lost a message shows exactly the committed events up to its
      revision; while ready, that is at least the published watermark. */
  ghost predicate ConnectionFits<E>(c: Connection<E>, published: int, committed: seq<E>) {
    && 0 <= c.revision <= |committed| && QueueFits(c.queue, c.sent) && PendingFits(c, published, committed)
    && (c.ready ==> c.stage == Serving)
    && (c.stage == Joining ==> c.revision == 0)
    && (!c.dropped && c.ready ==> c.revision >= published)
    && (!c.dropped ==> InOrder(c.sent, committed))
    && (!c.dropped && c.stage != Joining ==> Read(c.sent) == Showing(committed[..c.revision]))
  }

  ghost predicate RoomFits<E>(room: Room<E>, committed: seq<E>) {
    && 0 <= room.published <= |committed|
    && (forall r :: r in room.pendingEvents ==> room.published < r <= |committed| && room.pendingEvents[r] == committed[r - 1])
    && (forall id :: id in room.connections ==> ConnectionFits(room.connections[id], room.published, committed))
  }

  /** Behind `k` old entries, the kept events follow each other from the watermark `base` on. */
  ghost predicate Consecutive<E>(pending: seq<Queued<E>>, k: nat, base: int) {
    k <= |pending|
    && (forall j :: 0 <= j < k ==> pending[j].revision <= base)
    && (forall j :: k <= j < |pending| ==> pending[j].revision == base + 1 + (j - k))
  }

  /** What a readiness step on its way still owes its connection, unless that has lost a message:
      the kept events, from the old ones on, up to the watermark. */
  ghost predicate Owed<E>(c: Connection<E>, m: Marking, published: int) {
    && c.stage == Handshaking && !c.ready
    && match m.progress
       case Flushing =>
         c.revision == m.revision
         && (!c.dropped ==> Consecutive(c.pending, m.kept, m.revision) && published == m.revision + |c.pending| - m.kept)
       case Sending(i) =>
         !c.dropped ==>
           && i <= |c.pending| && Consecutive(c.pending, m.kept, m.revision) && published == m.revision + |c.pending| - m.kept
           && c.revision == m.revision + if i > m.kept then i - m.kept else 0
       case Telling(_) => !c.dropped ==> c.revision == published
  }

  ghost predicate MarkingFits<E>(w: World<E>) {
    w.marking.Some? ==>
      && w.room.Some? && w.marking.value.revision <= w.room.value.published
      && (w.marking.value.id in w.room.value.connections ==>
            Owed(w.room.value.connections[w.marking.value.id], w.marking.value, w.room.value.published))
  }

  ghost predicate RoomSound<E>(w: World<E>) {
    w.room.Some? ==> RoomFits(w.room.value, w.committed)
  }

  ghost predicate Sound<E>(w: World<E>) {
    RoomSound(w) && MarkingFits(w)
  }

  // ------------------------------------------------------------------- one queued message

  lemma PushFits<E>(c: Connection<E>, m: Message<E>)
    requires QueueFits(c.queue, c.sent) && HasRoom(c, 1)
    ensures QueueFits(Push(c, m).queue, Push(c, m).sent) && Read(Push(c, m).sent) == After(Read(c.sent), m)
  {
    ReadMore(c.sent, m);
    var d := Push(c, m);
    assert d.queue == d.sent[|d.sent| - |d.queue|..];
    hide Read, After;
  }

  lemma PushInOrder<E>(c: Connection<E>, m: Message<E>, committed: seq<E>)
    requires InOrder(c.sent, committed) && Shows(After(Read(c.sent), m), committed)
    ensures InOrder(Push(c, m).sent, committed)
  {
    hide Read, After, Shows;
    ReadMore(c.sent, m);
    assert (c.sent + [m])[..|c.sent|] == c.sent;
  }

  lemma ShowsNow<E>(messages: seq<Message<E>>, committed: seq<E>)
    requires InOrder(messages, committed)
    ensures Shows(Read(messages), committed)
  {
  }

  lemma StateFits<E>(c: Connection<E>, revision: nat, published: int, committed: seq<E>)
    requires ConnectionFits(c, published, committed) && revision <= |committed| && HasRoom(c, 1) && revision >= c.revision && c.stage != Joining
    ensures ConnectionFits(Push(c, StateAt(revision, committed[..revision])).(revision := revision), published, committed)
  {
    hide Read, QueueFits, InOrder;
    PushFits(c, StateAt(revision, committed[..revision]));
    if !c.dropped {
      PushInOrder(c, StateAt(revision, committed[..revision]), committed);
    }
  }

  /** No gap: an event that a ready connection with nothing lost accepts is exactly the next
      one after its revision. */
  lemma NextEventOnly<E>(c: Connection<E>, q: Queued<E>, published: int, committed: seq<E>)
    requires ConnectionFits(c, published, committed) && c.ready && !c.dropped && q.revision == published + 1
    requires EnqueueEvent(c, q).0 == Enqueued
    ensures q.revision == c.revision + 1 && EnqueueEvent(c, q).1.revision == q.revision
    ensures EnqueueEvent(c, q).1.sent == c.sent + [EventAt(c.revision + 1, q.event)]
  {
    hide Read, QueueFits, PendingFits, InOrder;
  }

  lemma EventFits<E>(c: Connection<E>, event: E, committed: seq<E>)
    requires 0 <= c.revision < |committed| && event == committed[c.revision] && HasRoom(c, 1) && QueueFits(c.queue, c.sent)
    requires InOrder(c.sent, committed) && Read(c.sent) == Showing(committed[..c.revision])
    ensures var d := Push(c, EventAt(c.revision + 1, event)).(revision := c.revision + 1);
      QueueFits(d.queue, d.sent) && InOrder(d.sent, committed) && Read(d.sent) == Showing(committed[..d.revision])
  {
    hide Read, QueueFits, InOrder;
    PushFits(c, EventAt(c.revision + 1, event));
    assert committed[..c.revision + 1] == committed[..c.revision] + [committed[c.revision]];
    PushInOrder(c, EventAt(c.revision + 1, event), committed);
  }

  /** Publishing the next event keeps every connection's invariant for the new watermark. */
  lemma DeliveredFits<E>(c: Connection<E>, q: Queued<E>, published: int, committed: seq<E>)
    requires ConnectionFits(c, published, committed) && q.revision == published + 1 && 0 <= published < |committed| && q.event == committed[published]
    ensures ConnectionFits(Delivered(c, q), published + 1, committed)
  {
    hide Read, QueueFits, InOrder;
    if c.ready {
      if EnqueueEvent(c, q).0 == Enqueued {
        PushFits(c, EventAt(q.revision, q.event));
        if !c.dropped {
          NextEventOnly(c, q, published, committed);
          EventFits(c, q.event, committed);
        }
      }
    }
  }

  lemma FlushOneFits<E>(room: Room<E>, committed: seq<E>)
    requires RoomFits(room, committed) && room.published + 1 in room.pendingEvents
    ensures RoomFits(FlushOne(room), committed)
  {
    hide ConnectionFits, Delivered;
    var q := Queued(room.published + 1, room.pendingEvents[room.published + 1]);
    forall id | id in room.connections ensures ConnectionFits(Delivered(room.connections[id], q), room.published + 1, committed) {
      DeliveredFits(room.connections[id], q, room.published, committed);
    }
  }

  lemma {:induction false} FlushFits<E>(room: Room<E>, committed: seq<E>)
    requires RoomFits(room, committed)
    ensures RoomFits(Flush(room), committed) && Flush(room).connections.Keys == room.connections.Keys
    ensures Flush(room).published >= room.published && Flush(room).published + 1 !in Flush(room).pendingEvents
    decreases |room.pendingEvents|
  {
    hide RoomFits;
    if room.published + 1 in room.pendingEvents {
      FlushOneFits(room, committed);
      RemovalShrinks(room.pendingEvents, room.published + 1);
      FlushFits(FlushOne(room), committed);
    }
  }

  lemma PublishFits<E>(room: Room<E>, revision: int, committed: seq<E>, limit: nat)
    requires RoomFits(room, committed) && 1 <= revision <= |committed|
    ensures RoomFits(Published(room, revision, committed[revision - 1], limit), committed)
  {
    hide ConnectionFits, Flush;
    if revision > room.published && revision <= limit {
      if revision in room.pendingEvents {
        FlushFits(room, committed);
      } else {
        FlushFits(room.(pendingEvents := room.pendingEvents[revision := committed[revision - 1]]), committed);
      }
    }
  }

  // --------------------------------------------------------------------------- handshakes

  lemma ResnapshotFits<E>(c: Connection<E>, revision: nat, published: int, committed: seq<E>, known: set<UserId>)
    requires ConnectionFits(c, published, committed) && revision <= |committed| && revision > published
    ensures ConnectionFits(Resnapshot(c, revision, committed[..revision], known), revision, committed)
  {
    hide Read, QueueFits, InOrder;
    if c.ready && c.revision < revision && HasRoom(c, 1) {
      StateFits(c, revision, published, committed);
    }
  }

  lemma RaisedFits<E>(room: Room<E>, self: ConnectionId, revision: nat, committed: seq<E>, known: set<UserId>)
    requires RoomFits(room, committed) && revision <= |committed| && revision >= room.published
    requires self in room.connections ==> !room.connections[self].ready
    ensures var raised := Raised(room, self, revision, committed[..revision], known);
      RoomFits(raised, committed) && raised.published == revision && raised.connections.Keys == room.connections.Keys
      && (self in room.connections ==> raised.connections[self] == room.connections[self])
  {
    hide ConnectionFits, Resnapshot;
    var raised := Raised(room, self, revision, committed[..revision], known);
    if revision > room.published {
      forall id | id in room.connections ensures ConnectionFits(raised.connections[id], revision, committed) {
        if id == self {
          NotReadyFits(room.connections[id], revision, room.published, committed);
        } else {
          ResnapshotFits(room.connections[id], revision, room.published, committed, known);
        }
      }
    }
  }

  lemma NotReadyFits<E>(c: Connection<E>, revision: nat, published: int, committed: seq<E>)
    requires ConnectionFits(c, published, committed) && revision > published && !c.ready
    ensures ConnectionFits(c, revision, committed)
  {
    hide Read, QueueFits, InOrder;
  }

  /** While a connection that is not ready loses nothing, a flush keeps for it every event it
      publishes, in order. */
  lemma {:induction false} FlushKeepsPending<E>(room: Room<E>, self: ConnectionId, k: nat, base: int)
    requires self in room.connections && !room.connections[self].ready
    requires k <= |room.connections[self].pending|
    requires !room.connections[self].dropped ==>
      Consecutive(room.connections[self].pending, k, base) && room.published == base + |room.connections[self].pending| - k
    ensures self in Flush(room).connections
    ensures var c, d := room.connections[self], Flush(room).connections[self];
      && !d.ready && d.stage == c.stage && d.revision == c.revision && d.sent == c.sent && d.queue == c.queue && (c.dropped ==> d.dropped)
      && k <= |d.pending|
      && (!d.dropped ==> Consecutive(d.pending, k, base) && Flush(room).published == base + |d.pending| - k)
    decreases |room.pendingEvents|
  {
    if room.published + 1 in room.pendingEvents {
      RemovalShrinks(room.pendingEvents, room.published + 1);
      FlushKeepsPending(FlushOne(room), self, k, base);
    }
  }

  /** Draining consecutive kept events from their watermark never skips one. */
  lemma {:induction false} DrainFits<E>(c: Connection<E>, k: nat, n: nat, committed: seq<E>)
    requires QueueFits(c.queue, c.sent) && Consecutive(c.pending, k, c.revision) && n <= |c.pending| && 0 <= c.revision
    requires c.revision <= |committed| && InOrder(c.sent, committed) && Read(c.sent) == Showing(committed[..c.revision])
    requires forall j :: 0 <= j < |c.pending| ==> 1 <= c.pending[j].revision <= |committed| && c.pending[j].event == committed[c.pending[j].revision - 1]
    ensures var (ok, d) := DrainPending(c, c.revision, n);
      && QueueFits(d.queue, d.sent) && d.pending == c.pending && d.dropped == c.dropped && d.user == c.user
      && (ok ==> d.revision == c.revision + if n > k then n - k else 0)
      && 0 <= d.revision <= |committed| && InOrder(d.sent, committed) && Read(d.sent) == Showing(committed[..d.revision])
  {
    hide Read, QueueFits, InOrder;
    if n > 0 {
      DrainFits(c, k, n - 1, committed);
      var (ok, d) := DrainPending(c, c.revision, n - 1);
      var q := c.pending[n - 1];
      if ok && q.revision > c.revision && HasRoom(d, 1) {
        assert n - 1 >= k && q.revision == d.revision + 1;
        EventFits(d, q.event, committed);
      }
    }
  }

  /** Draining for a connection that has already lost a message still keeps the queue in order. */
  lemma {:induction false} DrainKeepsQueue<E>(c: Connection<E>, revision: int, n: nat, committed: seq<E>)
    requires QueueFits(c.queue, c.sent) && n <= |c.pending| && 0 <= c.revision <= |committed|
    requires forall j :: 0 <= j < |c.pending| ==> c.pending[j].revision <= |committed|
    ensures var d := DrainPending(c, revision, n).1;
      QueueFits(d.queue, d.sent) && d.pending == c.pending && d.dropped == c.dropped && 0 <= d.revision <= |committed|
  {
    hide Read, QueueFits, InOrder;
    if n > 0 {
      DrainKeepsQueue(c, revision, n - 1, committed);
      var d := DrainPending(c, revision, n - 1).1;
      if HasRoom(d, 1) {
        PushFits(d, EventAt(c.pending[n - 1].revision, c.pending[n - 1].event));
      }
    }
  }

  lemma MarkedConnectionFits<E>(c: Connection<E>, k: nat, published: int, committed: seq<E>)
    requires ConnectionFits(c, published, committed) && !c.ready && c.stage == Handshaking && 0 <= published <= |committed|
    requires !c.dropped ==> Consecutive(c.pending, k, c.revision) && published == c.revision + |c.pending| - k
    ensures var (queued, d) := CatchUp(c, c.revision);
      ConnectionFits(d.(pending := [], held := map[], stage := Serving, ready := queued, dropped := d.dropped || !queued), published, committed)
  {
    hide Read, QueueFits, DrainPending, Consecutive, InOrder, TellHeld, Sorted;
    var drained, users := DrainPending(c, c.revision, |c.pending|).1, Sorted(c.held.Keys);
    if c.dropped {
      DrainKeepsQueue(c, c.revision, |c.pending|, committed);
    } else {
      ConsecutiveBound(c.pending, k, c.revision);
      DrainFits(c, k, |c.pending|, committed);
    }
    TellFits(drained, c.held, users, |users|, committed);
  }

  /** Telling held-back presence shows the client nothing new. */
  lemma {:induction false} TellFits<E>(c: Connection<E>, held: map<UserId, bool>, users: seq<UserId>, n: nat, committed: seq<E>)
    requires n <= |users| && (forall i :: 0 <= i < n ==> users[i] in held) && QueueFits(c.queue, c.sent)
    ensures var d := TellHeld(c, held, users, n).1;
      && QueueFits(d.queue, d.sent) && d.pending == c.pending && d.dropped == c.dropped && d.revision == c.revision
      && (InOrder(c.sent, committed) ==> InOrder(d.sent, committed)) && Read(d.sent) == Read(c.sent)
  {
    hide Read, QueueFits, InOrder;
    if n > 0 {
      TellFits(c, held, users, n - 1, committed);
      var (ok, d) := TellHeld(c, held, users, n - 1);
      if ok && HasRoom(d, 1) {
        QuietPush(d, PresenceOf(users[n - 1], held[users[n - 1]]), committed);
      }
    }
  }

  // Messages about anything but the game.
  predicate Quiet<E>(m: Message<E>) {
    m.Notice? || m.PresenceOf? || m.Connected?
  }

  lemma QuietPush<E>(c: Connection<E>, m: Message<E>, committed: seq<E>)
    requires Quiet(m) && QueueFits(c.queue, c.sent) && HasRoom(c, 1)
    ensures QueueFits(Push(c, m).queue, Push(c, m).sent) && Read(Push(c, m).sent) == Read(c.sent)
    ensures InOrder(c.sent, committed) ==> InOrder(Push(c, m).sent, committed)
  {
    hide Read, QueueFits, InOrder;
    PushFits(c, m);
    if InOrder(c.sent, committed) {
      ShowsNow(c.sent, committed);
      PushInOrder(c, m, committed);
    }
  }

  lemma ConsecutiveBound<E>(pending: seq<Queued<E>>, k: nat, base: int)
    requires Consecutive(pending, k, base)
    ensures k <= |pending|
  {
  }

  /** `markReady`, whoever calls it, keeps the room's invariant. */
  lemma MarkFits<E>(room: Room<E>, self: ConnectionId, revision: nat, committed: seq<E>, known: set<UserId>)
    requires RoomFits(room, committed) && revision <= |committed|
    requires self in room.connections ==>
      room.connections[self].stage == Handshaking && !room.connections[self].ready && room.connections[self].revision == revision
    ensures RoomFits(MarkReady(room, self, revision, committed[..revision], known).room, committed)
  {
    hide ConnectionFits, Flush, CatchUp, Consecutive, ResnapshotPeers;
    if revision >= room.published {
      var history := committed[..revision];
      RaisedFits(room, self, revision, committed, known);
      var raised := Raised(room, self, revision, history, known);
      FlushFits(raised, committed);
      var after := Flush(raised);
      assert after == Advance(room, self, revision, history, known);
      if self in room.connections {
        OldPendingIsBehind(room.connections[self], room.published, committed, revision);
        var k := |room.connections[self].pending|;
        FlushKeepsPending(raised, self, k, revision);
        MarkedConnectionFits(after.connections[self], k, after.published, committed);
      }
    }
  }

  lemma OldPendingIsBehind<E>(c: Connection<E>, published: int, committed: seq<E>, revision: int)
    requires ConnectionFits(c, published, committed) && published <= revision
    ensures Consecutive(c.pending, |c.pending|, revision)
  {
  }

  // --------------------------------------------------------------------------- every run

  lemma GrownHistory<E>(c: Connection<E>, published: int, committed: seq<E>, event: E)
    requires ConnectionFits(c, published, committed)
    ensures ConnectionFits(c, published, committed + [event])
  {
    hide Read, QueueFits, InOrder;
    assert (committed + [event])[..c.revision] == committed[..c.revision];
    if !c.dropped {
      InOrderGrows(c.sent, committed, event);
    }
  }

  lemma CommitKeepsSound<E>(w: World<E>, event: E)
    requires RoomSound(w)
    ensures RoomSound(w.(committed := w.committed + [event]))
  {
    hide ConnectionFits;
    if w.room.Some? {
      forall id | id in w.room.value.connections ensures ConnectionFits(w.room.value.connections[id], w.room.value.published, w.committed + [event]) {
        GrownHistory(w.room.value.connections[id], w.room.value.published, w.committed, event);
      }
    }
  }

  lemma InitialFits<E>(c: Connection<E>, revision: nat, published: int, committed: seq<E>)
    requires ConnectionFits(c, published, committed) && c.stage == Joining && revision <= |committed|
    ensures var (queued, d) := EnqueueInitial(c, revision, committed[..revision]);
      ConnectionFits(if queued then d.(stage := Handshaking) else c.(dropped := true), published, committed)
  {
    hide Read, QueueFits, InOrder;
    if HasRoom(c, 2) {
      QuietPush(c, Connected(revision), committed);
      var d := Push(c, Connected(revision));
      PushFits(d, StateAt(revision, committed[..revision]));
      if !c.dropped {
        PushInOrder(d, StateAt(revision, committed[..revision]), committed);
      }
    }
  }

  lemma RestateFits<E>(c: Connection<E>, revision: nat, published: int, committed: seq<E>)
    requires ConnectionFits(c, published, committed) && c.stage != Joining && revision <= |committed|
    ensures var (r, d) := EnqueueState(c, StateAt(revision, committed[..revision]), revision);
      ConnectionFits(if Failed(r) then c.(dropped := true) else d, published, committed)
  {
    if revision >= c.revision && HasRoom(c, 1) {
      StateFits(c, revision, published, committed);
    }
    hide Read, QueueFits, InOrder;
  }

  lemma ErrorAndStateFits<E>(c: Connection<E>, revision: nat, published: int, committed: seq<E>)
    requires ConnectionFits(c, published, committed) && c.stage != Joining && revision <= |committed|
    ensures var (r, d) := EnqueueErrorAndState(c, revision, committed[..revision]);
      ConnectionFits(if Failed(r) then c.(dropped := true) else d, published, committed)
  {
    hide Read, QueueFits, InOrder;
    if revision >= c.revision && HasRoom(c, 2) {
      QuietPush(c, Notice, committed);
      PushFits(Push(c, Notice), StateAt(revision, committed[..revision]));
      if !c.dropped {
        PushInOrder(Push(c, Notice), StateAt(revision, committed[..revision]), committed);
      }
    }
  }

  lemma NotedFits<E>(c: Connection<E>, published: int, committed: seq<E>)
    requires ConnectionFits(c, published, committed)
    ensures ConnectionFits(Noted(c), published, committed)
  {
    hide Read, QueueFits, InOrder;
    if HasRoom(c, 1) {
      QuietPush(c, Notice, committed);
    }
  }

  lemma InformedFits<E>(c: Connection<E>, user: UserId, online: bool, published: int, committed: seq<E>)
    requires ConnectionFits(c, published, committed)
    ensures ConnectionFits(Informed(c, user, online), published, committed)
  {
    hide Read, QueueFits, InOrder;
    if HasRoom(c, 1) {
      QuietPush(c, PresenceOf(user, online), committed);
    }
  }

  lemma AnnouncementFits<E>(room: Room<E>, user: UserId, online: bool, committed: seq<E>)
    requires RoomFits(room, committed)
    ensures RoomFits(room.(connections := InformedAll(room.connections, user, online)), committed)
  {
    hide ConnectionFits, Informed;
    forall id | id in room.connections ensures ConnectionFits(Informed(room.connections[id], user, online), room.published, committed) {
      InformedFits(room.connections[id], user, online, room.published, committed);
    }
  }

  lemma WrittenFits<E>(c: Connection<E>, published: int, committed: seq<E>)
    requires ConnectionFits(c, published, committed) && c.queue != []
    ensures ConnectionFits(c.(queue := c.queue[1..]), published, committed)
  {
    hide Read, InOrder;
  }

  /** Every step but those inside a readiness step keeps what the room promises. */
  lemma StepKeepsRoom<E>(w: World<E>, s: Step<E>, limit: nat)
    requires RoomSound(w) && Enabled(w, s, limit) && !s.MarkMore?
    ensures RoomSound(Next(w, s, limit))
  {
    hide ConnectionFits, Flush, MarkReady, Published, EnqueueInitial, EnqueueState, EnqueueErrorAndState, Noted,
      FlushOne, InformedAll, Raised;
    match s
    case Commit(event) => CommitKeepsSound(w, event);
    case Register(id, user, presenceEnabled) => RegisterFits(w, id, user, presenceEnabled);
    case Initial(id, revision) => InitialFits(w.room.value.connections[id], revision, w.room.value.published, w.committed);
    case Restate(id, revision) => RestateFits(w.room.value.connections[id], revision, w.room.value.published, w.committed);
    case ErrorAndState(id, revision) => ErrorAndStateFits(w.room.value.connections[id], revision, w.room.value.published, w.committed);
    case Mark(id, known) =>
      HandshakingIsNotReady(w.room.value.connections[id], w.room.value.published, w.committed);
      MarkFits(w.room.value, id, w.room.value.connections[id].revision, w.committed, known);
    case MarkClosed(id, revision, known) => MarkFits(w.room.value, id, revision, w.committed, known);
    case MarkBegin(id, known) =>
      HandshakingIsNotReady(w.room.value.connections[id], w.room.value.published, w.committed);
      if w.room.value.connections[id].revision >= w.room.value.published {
        RaisedFits(w.room.value, id, w.room.value.connections[id].revision, w.committed, known);
      }
    case Publish(revision) =>
      if w.room.Some? {
        PublishFits(w.room.value, revision, w.committed, limit);
      }
    case Arrive(revision) =>
    case FlushNext => FlushOneFits(w.room.value, w.committed);
    case Announce(user, online) =>
      if w.room.Some? {
        AnnouncementFits(w.room.value, user, online, w.committed);
      }
    case Note(id) => NotedFits(w.room.value.connections[id], w.room.value.published, w.committed);
    case Write(id) => WrittenFits(w.room.value.connections[id], w.room.value.published, w.committed);
    case Close(id) =>
  }

  // ---------------------------------------------------------- inside a readiness step

  lemma FlushedOwed<E>(c: Connection<E>, m: Marking, q: Queued<E>, published: int)
    requires Owed(c, m, published) && m.progress.Flushing? && q.revision == published + 1
    ensures Owed(Delivered(c, q), m, published + 1)
  {
  }

  /** The next kept event is exactly the next one its connection needs. */
  lemma SendOneFits<E>(c: Connection<E>, m: Marking, i: nat, published: int, committed: seq<E>)
    requires ConnectionFits(c, published, committed) && Owed(c, m, published)
    requires m.progress == Sending(i) && i < |c.pending| && c.pending[i].revision > m.revision
    ensures var (r, d) := EnqueueEvent(c, c.pending[i]);
      !Failed(r) ==> ConnectionFits(d, published, committed) && Owed(d, m.(progress := Sending(i + 1)), published)
  {
    hide Read, QueueFits, InOrder;
    var q := c.pending[i];
    if EnqueueEvent(c, q).0 == Enqueued {
      PushFits(c, EventAt(q.revision, q.event));
      if !c.dropped {
        assert i >= m.kept && q.revision == c.revision + 1;
        EventFits(c, q.event, committed);
      }
    }
  }

  lemma TellOneFits<E>(c: Connection<E>, m: Marking, i: nat, user: UserId, online: bool, published: int, committed: seq<E>)
    requires ConnectionFits(c, published, committed) && Owed(c, m, published) && m.progress == Telling(i)
    ensures var (told, d) := EnqueuePresence(c, user, online);
      told ==> ConnectionFits(d, published, committed) && Owed(d, m.(progress := Telling(i + 1)), published)
  {
    hide Read, QueueFits, InOrder;
    if HasRoom(c, 1) {
      QuietPush(c, PresenceOf(user, online), committed);
    }
  }

  lemma EndFits<E>(c: Connection<E>, m: Marking, queued: bool, published: int, committed: seq<E>)
    requires ConnectionFits(c, published, committed) && Owed(c, m, published) && (queued ==> m.progress.Telling?)
    ensures ConnectionFits(c.(pending := [], held := map[], stage := Serving, ready := queued, dropped := c.dropped || !queued), published, committed)
  {
    hide Read, QueueFits, InOrder;
  }

  lemma FinishKeepsSound<E>(w: World<E>, queued: bool)
    requires Sound(w) && w.marking.Some? && Has(w, w.marking.value.id) && (queued ==> w.marking.value.progress.Telling?)
    ensures Sound(Finished(w, w.room.value.connections[w.marking.value.id], queued))
  {
    hide ConnectionFits, Owed;
    EndFits(w.room.value.connections[w.marking.value.id], w.marking.value, queued, w.room.value.published, w.committed);
  }

  /** Each message of a readiness step keeps all the invariants. */
  lemma MoreKeepsSound<E>(w: World<E>)
    requires Sound(w) && w.marking.Some? && Has(w, w.marking.value.id)
    ensures Sound(MarkedMore(w))
  {
    hide ConnectionFits, Delivered, EnqueueEvent, EnqueuePresence, Failed, Owed, Finished, Sorted;
    var m, room := w.marking.value, w.room.value;
    var c := room.connections[m.id];
    match m.progress
    case Flushing =>
      if room.published + 1 in room.pendingEvents {
        FlushOneFits(room, w.committed);
        FlushedOwed(c, m, Queued(room.published + 1, room.pendingEvents[room.published + 1]), room.published);
      } else {
        MoveOn(c, m, room.published);
      }
    case Sending(i) =>
      if i < |c.pending| && c.pending[i].revision > m.revision {
        SendOneFits(c, m, i, room.published, w.committed);
        FinishKeepsSound(w, false);
      } else {
        MoveOn(c, m, room.published);
      }
    case Telling(i) =>
      var users := Sorted(c.held.Keys);
      if i < |users| {
        TellOneFits(c, m, i, users[i], c.held[users[i]], room.published, w.committed);
        FinishKeepsSound(w, false);
      } else {
        FinishKeepsSound(w, true);
      }
  }

  lemma MoveOn<E>(c: Connection<E>, m: Marking, published: int)
    requires Owed(c, m, published)
    ensures m.progress.Flushing? ==> Owed(c, m.(progress := Sending(0)), published)
    ensures m.progress.Sending? && m.progress.i >= |c.pending| ==> Owed(c, m.(progress := Telling(0)), published)
    ensures m.progress.Sending? && m.progress.i < |c.pending| && c.pending[m.progress.i].revision <= m.revision ==>
      Owed(c, m.(progress := Sending(m.progress.i + 1)), published)
  {
  }

  /** What may happen beside a readiness step leaves what it owes as it is. */
  lemma StepKeepsMarking<E>(w: World<E>, s: Step<E>, limit: nat)
    requires Sound(w) && Enabled(w, s, limit) && !s.MarkMore?
    ensures MarkingFits(Next(w, s, limit))
  {
    hide ConnectionFits, Flush, MarkReady, Published, EnqueueInitial, EnqueueState, EnqueueErrorAndState, FlushOne, InformedAll, Raised;
    if w.marking.Some? {
      if s.Note? || s.Write? {
        SelfStaysOwed(w.room.value.connections[s.id], w.marking.value, w.room.value.published);
      }
      hide Owed, Noted;
    } else if s.MarkBegin? {
      var c := w.room.value.connections[s.id];
      HandshakingIsNotReady(c, w.room.value.published, w.committed);
      if c.revision >= w.room.value.published {
        RaisedFits(w.room.value, s.id, c.revision, w.committed, s.known);
        OldPendingIsBehind(c, w.room.value.published, w.committed, c.revision);
      }
    }
  }

  lemma SelfStaysOwed<E>(c: Connection<E>, m: Marking, published: int)
    ensures Owed(c, m, published) ==> Owed(Noted(c), m, published)
    ensures Owed(c, m, published) && c.queue != [] ==> Owed(c.(queue := c.queue[1..]), m, published)
  {
  }

  /** Every step of the protocol, taken whenever it can be, keeps all the invariants. */
  lemma StepKeepsSound<E>(w: World<E>, s: Step<E>, limit: nat)
    requires Sound(w) && Enabled(w, s, limit)
    ensures Sound(Next(w, s, limit))
  {
    hide RoomSound, MarkingFits, MarkedMore;
    if s.MarkMore? {
      MoreKeepsSound(w);
    } else {
      StepKeepsRoom(w, s, limit);
      StepKeepsMarking(w, s, limit);
    }
  }

  lemma HandshakingIsNotReady<E>(c: Connection<E>, published: int, committed: seq<E>)
    requires ConnectionFits(c, published, committed)
    ensures (c.stage != Serving ==> !c.ready) && 0 <= c.revision <= |committed|
  {
    hide Read, QueueFits, PendingFits, InOrder;
  }

  lemma RegisterFits<E>(w: World<E>, id: ConnectionId, user: UserId, presenceEnabled: bool)
    requires RoomSound(w) && !Has(w, id)
    ensures RoomSound(w.(room := Some(Room0(w).(connections := Room0(w).connections[id := NewConnection(user, presenceEnabled)]))))
  {
    NewConnectionFits<E>(user, presenceEnabled, Room0(w).published, w.committed);
    hide ConnectionFits;
  }

  lemma NewConnectionFits<E>(user: UserId, presenceEnabled: bool, published: int, committed: seq<E>)
    ensures ConnectionFits(NewConnection<E>(user, presenceEnabled), published, committed)
  {
  }

  // A step that is not enabled changes nothing.
  function Run<E>(w: World<E>, steps: seq<Step<E>>, limit: nat): World<E> {
    if steps == [] then w
    else
      var before, last := Run(w, steps[..|steps| - 1], limit), steps[|steps| - 1];
      if Enabled(before, last, limit) then Next(before, last, limit) else before
  }

  lemma StartIsSound<E>()
    ensures Sound(Start<E>())
  {
  }

  lemma {:induction false} RunKeepsSound<E>(w: World<E>, steps: seq<Step<E>>, limit: nat)
    requires Sound(w)
    ensures Sound(Run(w, steps, limit))
  {
    hide Sound, Next, Enabled;
    if steps != [] {
      RunKeepsSound(w, steps[..|steps| - 1], limit);
      var before := Run(w, steps[..|steps| - 1], limit);
      if Enabled(before, steps[|steps| - 1], limit) {
        StepKeepsSound(before, steps[|steps| - 1], limit);
      }
    }
  }

  /** Over every interleaving: a connection past its first snapshot that never lost a message has
      been sent exactly the committed events up to its revision, each once and in order; while
      it is ready that revision is at least the published watermark; and however much of it the
      client has read, it shows a prefix of what was committed. */
  lemma NoGaps<E>(steps: seq<Step<E>>, limit: nat, id: ConnectionId)
    requires Has(Run(Start<E>(), steps, limit), id)
    ensures var w := Run(Start<E>(), steps, limit);
      var room := w.room.value;
      var c := room.connections[id];
      && 0 <= room.published <= |w.committed| && 0 <= c.revision <= |w.committed|
      && (!c.dropped && c.stage != Joining ==> Read(c.sent) == Showing(w.committed[..c.revision]))
      && (!c.dropped ==> forall n :: 0 <= n <= |c.sent| ==> Shows(Read(c.sent[..n]), w.committed))
      && (!c.dropped && c.ready ==> c.revision >= room.published)
      && |c.queue| <= |c.sent| && c.sent == c.sent[..|c.sent| - |c.queue|] + c.queue
  {
    hide Run, Read, Shows, InOrder;
    RunKeepsSound(Start<E>(), steps, limit);
    var w := Run(Start<E>(), steps, limit);
    var c := w.room.value.connections[id];
    if !c.dropped {
      forall n | 0 <= n <= |c.sent| ensures Shows(Read(c.sent[..n]), w.committed) {
        InOrderThroughout(c.sent, w.committed, n);
      }
    }
  }
}
