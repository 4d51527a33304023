/** What the hub owes its connections: whatever is published while a room exists is handed out, however
    late its predecessors come, and everybody past the handshake who has lost nothing is sent it. */
module HubDelivery {
  import opened Common
  import opened Hub
  import opened HubProofs

  // --------------------------------------------------------------- nothing is forgotten

  /** The room has handed the event out, or keeps it until its predecessors are there. */
  predicate Taken<E>(room: Room<E>, k: int) {
    k <= room.published || k in room.pendingEvents
  }

  predicate NothingToHandOut<E>(room: Room<E>) {
    room.published + 1 !in room.pendingEvents
  }

  lemma {:induction false} FlushTakes<E>(room: Room<E>)
    ensures forall k :: Taken(room, k) ==> Taken(Flush(room), k)
    ensures Flush(room).published >= room.published && NothingToHandOut(Flush(room))
    decreases |room.pendingEvents|
  {
    if room.published + 1 in room.pendingEvents {
      RemovalShrinks(room.pendingEvents, room.published + 1);
      FlushTakes(FlushOne(room));
    }
  }

  lemma PublishTakes<E>(room: Room<E>, revision: int, event: E, limit: int)
    ensures var after := Published(room, revision, event, limit);
      && after.published >= room.published && (NothingToHandOut(room) ==> NothingToHandOut(after))
      && (forall k :: Taken(room, k) ==> Taken(after, k)) && (1 <= revision <= limit ==> Taken(after, revision))
  {
    hide Flush;
    if 1 <= revision <= limit && revision > room.published {
      var waiting := if revision in room.pendingEvents then room else room.(pendingEvents := room.pendingEvents[revision := event]);
      FlushTakes(waiting);
    }
  }

  lemma RaisedTakes<E>(room: Room<E>, self: ConnectionId, revision: int, history: seq<E>, known: set<UserId>)
    ensures var after := Raised(room, self, revision, history, known);
      after.published >= room.published && forall k :: Taken(room, k) ==> Taken(after, k)
  {
    hide ResnapshotPeers;
  }

  lemma MarkTakes<E>(room: Room<E>, self: ConnectionId, revision: int, history: seq<E>, known: set<UserId>)
    ensures var after := MarkReady(room, self, revision, history, known).room;
      && after.published >= room.published && (NothingToHandOut(room) ==> NothingToHandOut(after))
      && forall k :: Taken(room, k) ==> Taken(after, k)
  {
    hide Flush, CatchUp, ResnapshotPeers;
    RaisedTakes(room, self, revision, history, known);
    FlushTakes(Raised(room, self, revision, history, known));
  }

  // Publications come whole, and only a readiness step under way has still to hand out what waits.
  predicate Settled<E>(w: World<E>) {
    w.room.Some? && (w.marking.None? || !w.marking.value.progress.Flushing?) ==> NothingToHandOut(w.room.value)
  }

  lemma MoreTakes<E>(w: World<E>)
    requires w.marking.Some? && Has(w, w.marking.value.id)
    ensures var room, after := w.room.value, MarkedMore(w).room;
      && after.Some? && after.value.published >= room.published && (forall k :: Taken(room, k) ==> Taken(after.value, k))
      && (Settled(w) ==> Settled(MarkedMore(w)))
  {
    hide DeliveredToAll, EnqueueEvent, EnqueuePresence, Failed, Sorted;
  }

  // One of an event's two ways to the room.
  predicate Hands<E>(s: Step<E>, k: nat) {
    s == Publish(k) || s == Arrive(k)
  }

  /** What one step does to the watermark and to what waits for it. */
  lemma StepTakes<E>(w: World<E>, s: Step<E>, limit: nat)
    requires Enabled(w, s, limit)
    ensures var v := Next(w, s, limit);
      && (Settled(w) && !s.Arrive? ==> Settled(v))
      && (w.room.Some? && v.room.Some? ==>
            && v.room.value.published >= w.room.value.published
            && (forall k :: Taken(w.room.value, k) ==> Taken(v.room.value, k))
            && (forall k: nat :: Hands(s, k) && k <= limit ==> Taken(v.room.value, k)))
  {
    hide EnqueueInitial, EnqueueState, EnqueueErrorAndState, Noted, InformedAll, MarkReady, Published, Raised, MarkedMore, Taken, FlushOne,
      NothingToHandOut;
    match s
    case Mark(id, known) =>
      var revision := w.room.value.connections[id].revision;
      if 0 <= revision <= |w.committed| {
        MarkTakes(w.room.value, id, revision, w.committed[..revision], known);
      }
    case MarkClosed(id, revision, known) => MarkTakes(w.room.value, id, revision, w.committed[..revision], known);
    case MarkBegin(id, known) =>
      var c := w.room.value.connections[id];
      if 0 <= c.revision <= |w.committed| {
        RaisedTakes(w.room.value, id, c.revision, w.committed[..c.revision], known);
      }
    case MarkMore => MoreTakes(w);
    case Publish(revision) =>
      if w.room.Some? {
        PublishTakes(w.room.value, revision, w.committed[revision - 1], limit);
      }
    case _ => OtherStepsTake(w, s, limit);
  }

  lemma OtherStepsTake<E>(w: World<E>, s: Step<E>, limit: nat)
    requires Enabled(w, s, limit) && !s.Publish? && !s.Mark? && !s.MarkClosed? && !s.MarkBegin? && !s.MarkMore?
    ensures var v := Next(w, s, limit);
      && (Settled(w) && !s.Arrive? ==> Settled(v))
      && (w.room.Some? && v.room.Some? ==>
            && v.room.value.published >= w.room.value.published
            && (forall k :: Taken(w.room.value, k) ==> Taken(v.room.value, k))
            && (s.Arrive? && s.revision <= limit ==> Taken(v.room.value, s.revision)))
  {
    hide EnqueueInitial, EnqueueState, EnqueueErrorAndState, Noted, InformedAll, DeliveredToAll;
  }

  // -------------------------------------------------------------------- over whole runs

  lemma {:induction false} RunStaysWithin<E>(steps: seq<Step<E>>, limit: nat)
    ensures |Run(Start<E>(), steps, limit).committed| <= limit
  {
    hide Next, Enabled;
    if steps != [] {
      var front, last := steps[..|steps| - 1], steps[|steps| - 1];
      RunStaysWithin(front, limit);
      if Enabled(Run(Start<E>(), front, limit), last, limit) {
        CommitsStayWithin(Run(Start<E>(), front, limit), last, limit);
      }
    }
  }

  lemma CommitsStayWithin<E>(w: World<E>, s: Step<E>, limit: nat)
    requires |w.committed| <= limit && Enabled(w, s, limit)
    ensures |Next(w, s, limit).committed| <= limit
  {
    hide MarkReady, Published, EnqueueInitial, EnqueueState, EnqueueErrorAndState, Noted, InformedAll, Raised, Failed, EnqueueEvent, EnqueuePresence,
      FlushOne, Sorted;
  }

  /** From the `m`-th step on the match has always had a room. */
  ghost predicate RoomSince<E>(steps: seq<Step<E>>, limit: nat, m: nat) {
    m <= |steps| && forall j :: m <= j <= |steps| ==> Run(Start<E>(), steps[..j], limit).room.Some?
  }

  /** Since then event `k` has been handed to the room. */
  ghost predicate HandedSince<E>(steps: seq<Step<E>>, limit: nat, m: nat, k: nat) {
    exists i :: m <= i < |steps| && Hands(steps[i], k) && Enabled(Run(Start<E>(), steps[..i], limit), steps[i], limit)
  }

  lemma FrontHasRoom<E>(steps: seq<Step<E>>, limit: nat, m: nat)
    requires RoomSince(steps, limit, m) && m < |steps|
    ensures RoomSince(steps[..|steps| - 1], limit, m)
    ensures Run(Start<E>(), steps[..|steps| - 1], limit).room.Some? && Run(Start<E>(), steps, limit).room.Some?
  {
    hide Run;
    var front := steps[..|steps| - 1];
    assert steps[..|steps|] == steps && front[..|front|] == front;
    forall j | m <= j <= |front| ensures Run(Start<E>(), front[..j], limit).room.Some? {
      assert front[..j] == steps[..j];
    }
  }

  lemma RunLast<E>(steps: seq<Step<E>>, limit: nat)
    requires steps != []
    ensures var before, last := Run(Start<E>(), steps[..|steps| - 1], limit), steps[|steps| - 1];
      Run(Start<E>(), steps, limit) == if Enabled(before, last, limit) then Next(before, last, limit) else before
  {
  }

  lemma {:induction false} WatermarkRises<E>(steps: seq<Step<E>>, limit: nat, m: nat)
    requires RoomSince(steps, limit, m)
    ensures Run(Start<E>(), steps, limit).room.Some? && Run(Start<E>(), steps[..m], limit).room.Some?
    ensures Run(Start<E>(), steps, limit).room.value.published >= Run(Start<E>(), steps[..m], limit).room.value.published
  {
    hide Next, Enabled, Settled;
    assert steps[..|steps|] == steps;
    if m < |steps| {
      var front, last := steps[..|steps| - 1], steps[|steps| - 1];
      FrontHasRoom(steps, limit, m);
      assert front[..m] == steps[..m];
      WatermarkRises(front, limit, m);
      if Enabled(Run(Start<E>(), front, limit), last, limit) {
        StepTakes(Run(Start<E>(), front, limit), last, limit);
      }
    }
  }

  /** What has been handed to the room is handed out, or waits for its predecessors. */
  lemma {:induction false} HandedIsTaken<E>(steps: seq<Step<E>>, limit: nat, m: nat, k: nat)
    requires RoomSince(steps, limit, m) && HandedSince(steps, limit, m, k)
    ensures var w := Run(Start<E>(), steps, limit); w.room.Some? && Taken(w.room.value, k)
  {
    hide Next, Enabled, Settled, Taken, Hands, Run;
    var front, last := steps[..|steps| - 1], steps[|steps| - 1];
    FrontHasRoom(steps, limit, m);
    RunLast(steps, limit);
    var before := Run(Start<E>(), front, limit);
    RunStaysWithin(front, limit);
    if Enabled(before, last, limit) {
      StepTakes(before, last, limit);
    }
    if Hands(last, k) && Enabled(before, last, limit) {
      HandedIsCommitted(before, last, k, limit);
    } else {
      var i :| m <= i < |steps| && Hands(steps[i], k) && Enabled(Run(Start<E>(), steps[..i], limit), steps[i], limit);
      assert steps[..|front|] == front;
      assert i < |front|;
      assert front[..i] == steps[..i] && front[i] == steps[i];
      HandedIsTaken(front, limit, m, k);
    }
  }

  lemma HandedIsCommitted<E>(w: World<E>, s: Step<E>, k: nat, limit: nat)
    requires Hands(s, k) && Enabled(w, s, limit) && |w.committed| <= limit
    ensures 1 <= k <= limit
  {
  }

  lemma WatermarkIsNatural<E>(steps: seq<Step<E>>, limit: nat)
    ensures var w := Run(Start<E>(), steps, limit); w.room.Some? ==> 0 <= w.room.value.published
  {
    hide Run, ConnectionFits;
    RunKeepsSound(Start<E>(), steps, limit);
  }

  /** While a match has a room, and everything from where the watermark stood up to `n` has been handed
      to it, in whatever order and with anything in between: once nothing is left to hand out, the
      watermark has reached `n`. */
  lemma HandedIsHandedOut<E>(steps: seq<Step<E>>, limit: nat, m: nat, n: nat)
    requires RoomSince(steps, limit, m) && Run(Start<E>(), steps[..m], limit).room.Some?
    requires forall k: nat :: Run(Start<E>(), steps[..m], limit).room.value.published < k <= n ==> HandedSince(steps, limit, m, k)
    requires Run(Start<E>(), steps, limit).room.Some? ==>
      Run(Start<E>(), steps, limit).room.value.published + 1 !in Run(Start<E>(), steps, limit).room.value.pendingEvents
    ensures Run(Start<E>(), steps, limit).room.Some? && Run(Start<E>(), steps, limit).room.value.published >= n
  {
    hide Run, HandedSince;
    WatermarkRises(steps, limit, m);
    WatermarkIsNatural(steps, limit);
    var w := Run(Start<E>(), steps, limit);
    if w.room.value.published < n {
      var k: nat := w.room.value.published + 1;
      assert HandedSince(steps, limit, m, k);
      HandedIsTaken(steps, limit, m, k);
    }
  }

  // ------------------------------------------------------------- whole publications

  ghost predicate Whole<E>(steps: seq<Step<E>>) {
    forall i :: 0 <= i < |steps| ==> !steps[i].Arrive?
  }

  lemma {:induction false} RunIsSettled<E>(steps: seq<Step<E>>, limit: nat)
    requires Whole(steps)
    ensures Settled(Run(Start<E>(), steps, limit))
  {
    hide Next, Enabled, Settled;
    if steps == [] {
      StartIsSettled<E>();
    } else {
      var front, last := steps[..|steps| - 1], steps[|steps| - 1];
      RunIsSettled(front, limit);
      if Enabled(Run(Start<E>(), front, limit), last, limit) {
        StepTakes(Run(Start<E>(), front, limit), last, limit);
      }
    }
  }

  lemma StartIsSettled<E>()
    ensures Settled(Start<E>())
  {
  }

  // While a readiness step is on its way nothing is handed to the room.
  lemma NobodyIsMarking<E>(w: World<E>, s: Step<E>, k: nat, limit: nat)
    requires Hands(s, k) && Enabled(w, s, limit)
    ensures Next(w, s, limit).marking.None?
  {
    hide Published, Arrived;
  }

  lemma HandedEarlier<E>(steps: seq<Step<E>>, limit: nat, m: nat, k: nat)
    requires HandedSince(steps, limit, m, k) && m < |steps| && Run(Start<E>(), steps, limit).marking.Some?
    ensures HandedSince(steps[..|steps| - 1], limit, m, k)
  {
    hide Run, Next, Enabled, Hands;
    var front, last := steps[..|steps| - 1], steps[|steps| - 1];
    var i :| m <= i < |steps| && Hands(steps[i], k) && Enabled(Run(Start<E>(), steps[..i], limit), steps[i], limit);
    if i == |front| {
      assert steps[..i] == front;
      RunLast(steps, limit);
      NobodyIsMarking(Run(Start<E>(), front, limit), last, k, limit);
      assert false;
    } else {
      assert front[..i] == steps[..i] && front[i] == steps[i];
    }
  }

  /** When publications come whole, the watermark reaches `n` at once, with the last of the events up to
      there: none stays behind because a later one was published before it. */
  lemma {:induction false} PublishedIsHandedOut<E>(steps: seq<Step<E>>, limit: nat, m: nat, n: nat)
    requires Whole(steps) && RoomSince(steps, limit, m) && Run(Start<E>(), steps[..m], limit).room.Some?
    requires forall k: nat :: Run(Start<E>(), steps[..m], limit).room.value.published < k <= n ==> HandedSince(steps, limit, m, k)
    ensures Run(Start<E>(), steps, limit).room.Some? && Run(Start<E>(), steps, limit).room.value.published >= n
  {
    hide Next, Enabled, HandedSince, Taken, Run;
    var w, start := Run(Start<E>(), steps, limit), Run(Start<E>(), steps[..m], limit);
    assert steps[..|steps|] == steps;
    WatermarkRises(steps, limit, m);
    RunIsSettled(steps, limit);
    if w.marking.None? || m == |steps| {
      if w.marking.Some? && n > start.room.value.published {
        NoneHanded(steps, limit, m, n);
      }
      if w.marking.None? {
        HandedIsHandedOut(steps, limit, m, n);
      }
    } else {
      hide Settled;
      var front := steps[..|steps| - 1];
      FrontHasRoom(steps, limit, m);
      assert front[..m] == steps[..m];
      forall k: nat | start.room.value.published < k <= n ensures HandedSince(front, limit, m, k) {
        HandedEarlier(steps, limit, m, k);
      }
      PublishedIsHandedOut(front, limit, m, n);
      RunLast(steps, limit);
      if Enabled(Run(Start<E>(), front, limit), steps[|front|], limit) {
        StepTakes(Run(Start<E>(), front, limit), steps[|front|], limit);
      }
    }
  }

  lemma NoneHanded<E>(steps: seq<Step<E>>, limit: nat, m: nat, k: nat)
    requires m == |steps|
    ensures !HandedSince(steps, limit, m, k)
  {
  }

  // ------------------------------------------------------------------ and it is sent

  /** The message tells its reader event `n`: as that event, or in a snapshot that shows it. */
  ghost predicate Tells<E>(m: Message<E>, n: nat, event: E) {
    match m
    case EventAt(revision, e) => revision == n && e == event
    case StateAt(_, history) => 1 <= n <= |history| && history[n - 1] == event
    case _ => false
  }

  /** A client that shows event `n` has been told it. */
  lemma {:induction false} ShownWasTold<E>(messages: seq<Message<E>>, n: nat, event: E)
    requires Read(messages).Showing? && 1 <= n <= |Read(messages).history| && Read(messages).history[n - 1] == event
    ensures exists j :: 0 <= j < |messages| && Tells(messages[j], n, event)
  {
    var front, last := messages[..|messages| - 1], messages[|messages| - 1];
    if Tells(last, n, event) {
      assert Tells(messages[|messages| - 1], n, event);
    } else {
      ShownWasTold(front, n, event);
      var j :| 0 <= j < |front| && Tells(front[j], n, event);
      assert Tells(messages[j], n, event);
    }
  }

  /** Past the handshake, a connection is ready unless it has lost a message. */
  predicate ReadyOrLost<E>(c: Connection<E>) {
    !c.dropped ==> (c.ready <==> c.stage == Serving)
  }

  predicate AllReadyOrLost<E>(room: Room<E>) {
    forall id :: id in room.connections ==> ReadyOrLost(room.connections[id])
  }

  lemma {:induction false} FlushKeepsReady<E>(room: Room<E>)
    requires AllReadyOrLost(room)
    ensures AllReadyOrLost(Flush(room))
    decreases |room.pendingEvents|
  {
    if room.published + 1 in room.pendingEvents {
      RemovalShrinks(room.pendingEvents, room.published + 1);
      FlushKeepsReady(FlushOne(room));
    }
  }

  lemma PublishKeepsReady<E>(room: Room<E>, revision: int, event: E, limit: int)
    requires AllReadyOrLost(room)
    ensures AllReadyOrLost(Published(room, revision, event, limit))
  {
    hide Flush;
    FlushKeepsReady(room);
    FlushKeepsReady(room.(pendingEvents := room.pendingEvents[revision := event]));
  }

  lemma RaisedKeepsReady<E>(room: Room<E>, self: ConnectionId, revision: int, history: seq<E>, known: set<UserId>)
    requires AllReadyOrLost(room)
    ensures AllReadyOrLost(Raised(room, self, revision, history, known))
  {
  }

  lemma MarkKeepsReady<E>(room: Room<E>, self: ConnectionId, revision: int, history: seq<E>, known: set<UserId>)
    requires AllReadyOrLost(room)
    ensures AllReadyOrLost(MarkReady(room, self, revision, history, known).room)
  {
    hide Flush, CatchUp, ResnapshotPeers;
    RaisedKeepsReady(room, self, revision, history, known);
    FlushKeepsReady(Raised(room, self, revision, history, known));
  }

  lemma FlushOneKeepsReady<E>(room: Room<E>)
    requires AllReadyOrLost(room) && room.published + 1 in room.pendingEvents
    ensures AllReadyOrLost(FlushOne(room))
  {
  }

  lemma MoreKeepsReady<E>(w: World<E>)
    requires w.marking.Some? && Has(w, w.marking.value.id) && AllReadyOrLost(w.room.value)
    ensures MarkedMore(w).room.Some? && AllReadyOrLost(MarkedMore(w).room.value)
  {
    hide Sorted, FlushOne, Failed;
    if w.room.value.published + 1 in w.room.value.pendingEvents {
      FlushOneKeepsReady(w.room.value);
    }
  }

  lemma StepKeepsReady<E>(w: World<E>, s: Step<E>, limit: nat)
    requires Enabled(w, s, limit) && (w.room.Some? ==> AllReadyOrLost(w.room.value))
    ensures Next(w, s, limit).room.Some? ==> AllReadyOrLost(Next(w, s, limit).room.value)
  {
    hide MarkReady, Published, Raised, MarkedMore, FlushOne, AllReadyOrLost;
    match s
    case FlushNext => FlushOneKeepsReady(w.room.value);
    case Mark(id, known) =>
      var revision := w.room.value.connections[id].revision;
      if 0 <= revision <= |w.committed| {
        MarkKeepsReady(w.room.value, id, revision, w.committed[..revision], known);
      }
    case MarkClosed(id, revision, known) => MarkKeepsReady(w.room.value, id, revision, w.committed[..revision], known);
    case MarkBegin(id, known) =>
      var c := w.room.value.connections[id];
      if 0 <= c.revision <= |w.committed| {
        RaisedKeepsReady(w.room.value, id, c.revision, w.committed[..c.revision], known);
      }
    case MarkMore => MoreKeepsReady(w);
    case Publish(revision) =>
      if w.room.Some? {
        PublishKeepsReady(w.room.value, revision, w.committed[revision - 1], limit);
      }
    case _ => OwnStepKeepsReady(w, s, limit);
  }

  lemma OwnStepKeepsReady<E>(w: World<E>, s: Step<E>, limit: nat)
    requires Enabled(w, s, limit) && (w.room.Some? ==> AllReadyOrLost(w.room.value))
    requires !s.Mark? && !s.MarkClosed? && !s.MarkBegin? && !s.MarkMore? && !s.FlushNext? && !s.Publish?
    ensures Next(w, s, limit).room.Some? ==> AllReadyOrLost(Next(w, s, limit).room.value)
  {
    hide HasRoom;
  }

  lemma {:induction false} RunKeepsReady<E>(steps: seq<Step<E>>, limit: nat)
    ensures var w := Run(Start<E>(), steps, limit); w.room.Some? ==> AllReadyOrLost(w.room.value)
  {
    hide Next, Enabled, AllReadyOrLost;
    if steps != [] {
      RunKeepsReady(steps[..|steps| - 1], limit);
      var before := Run(Start<E>(), steps[..|steps| - 1], limit);
      if Enabled(before, steps[|steps| - 1], limit) {
        StepKeepsReady(before, steps[|steps| - 1], limit);
      }
    }
  }

  /** Delivery. While a match has a room and the events up to `n` have been published, in whatever order
      and with anything in between, every connection past its handshake that has lost nothing is ready
      and has been told each of them, as an event or in a snapshot. */
  lemma EverybodyIsTold<E>(steps: seq<Step<E>>, limit: nat, m: nat, n: nat, id: ConnectionId)
    requires RoomSince(steps, limit, m) && Run(Start<E>(), steps[..m], limit).room.Some?
    requires forall k: nat :: Run(Start<E>(), steps[..m], limit).room.value.published < k <= n ==> HandedSince(steps, limit, m, k)
    requires Has(Run(Start<E>(), steps, limit), id)
    requires Whole(steps)
      || Run(Start<E>(), steps, limit).room.value.published + 1 !in Run(Start<E>(), steps, limit).room.value.pendingEvents
    ensures var w := Run(Start<E>(), steps, limit);
      var c := w.room.value.connections[id];
      && w.room.value.published >= n
      && (c.stage == Serving && !c.dropped ==>
            c.ready && n <= c.revision && forall k: nat :: 1 <= k <= n ==> HasBeenTold(c.sent, k, w.committed))
  {
    hide Run, RoomSince, HandedSince, Read, InOrder, Whole, Tells;
    if Whole(steps) {
      PublishedIsHandedOut(steps, limit, m, n);
    } else {
      HandedIsHandedOut(steps, limit, m, n);
    }
    NoGaps(steps, limit, id);
    RunKeepsReady(steps, limit);
    var w := Run(Start<E>(), steps, limit);
    var c := w.room.value.connections[id];
    if c.stage == Serving && !c.dropped {
      forall k: nat | 1 <= k <= n ensures HasBeenTold(c.sent, k, w.committed) {
        ShownWasTold(c.sent, k, w.committed[k - 1]);
      }
    }
  }

  ghost predicate HasBeenTold<E>(messages: seq<Message<E>>, n: nat, committed: seq<E>) {
    1 <= n <= |committed| && exists j :: 0 <= j < |messages| && Tells(messages[j], n, committed[n - 1])
  }

  /** A handshake that is not behind ends in service. */
  lemma HandshakeEnds<E>(w: World<E>, id: ConnectionId, known: set<UserId>, limit: nat)
    requires Sound(w) && Enabled(w, Mark(id, known), limit)
    ensures var v := Next(w, Mark(id, known), limit);
      && Has(v, id)
      && (v.room.value.connections[id].stage == Serving <==> w.room.value.connections[id].revision >= w.room.value.published)
  {
    hide Flush, CatchUp, ResnapshotPeers, ConnectionFits, MarkingFits;
    var c := w.room.value.connections[id];
    HandshakingIsNotReady(c, w.room.value.published, w.committed);
    if c.revision >= w.room.value.published {
      RaisedFits(w.room.value, id, c.revision, w.committed, known);
      FlushFits(Raised(w.room.value, id, c.revision, w.committed[..c.revision], known), w.committed);
    }
  }

  // --------------------------------------------------------------------- what is lost

  /** At least 31 messages are queued, or 32 events kept. */
  predicate NearlyFull<E>(c: Connection<E>) {
    |c.queue| >= 31 || |c.pending| >= 32
  }

  // What a hand-out does to a connection: it adds to queue and kept events, and loses only for want of room.
  predicate LosesForRoom<E>(c: Connection<E>, d: Connection<E>) {
    |d.queue| >= |c.queue| && |d.pending| >= |c.pending| && (d.dropped ==> c.dropped || NearlyFull(d))
  }

  lemma {:induction false} FlushLosesForRoom<E>(room: Room<E>, id: ConnectionId)
    requires id in room.connections && room.published >= 0
    ensures id in Flush(room).connections && LosesForRoom(room.connections[id], Flush(room).connections[id])
    decreases |room.pendingEvents|
  {
    if room.published + 1 in room.pendingEvents {
      RemovalShrinks(room.pendingEvents, room.published + 1);
      FlushLosesForRoom(FlushOne(room), id);
    }
  }

  // A peer whose user the snapshot does not know is given up.
  predicate UnknownTo<E>(s: Step<E>, user: UserId) {
    (s.Mark? || s.MarkClosed? || s.MarkBegin?) && user !in s.known
  }

  lemma MarkLosesForRoom<E>(room: Room<E>, self: ConnectionId, revision: int, history: seq<E>, known: set<UserId>, id: ConnectionId)
    requires id in room.connections && id != self && room.published >= 0 && revision >= 0
    ensures var after := MarkReady(room, self, revision, history, known).room;
      id in after.connections && (room.connections[id].user in known ==> LosesForRoom(room.connections[id], after.connections[id]))
  {
    hide Flush, CatchUp;
    if revision >= room.published {
      FlushLosesForRoom(Raised(room, self, revision, history, known), id);
    }
  }

  /** A connection is given up only when its queue or its kept events have no room for what comes next,
      or when a snapshot that its user does not belong to overtakes it. */
  lemma LossMeansFull<E>(w: World<E>, s: Step<E>, limit: nat, id: ConnectionId)
    requires Sound(w) && Enabled(w, s, limit) && Has(w, id) && Has(Next(w, s, limit), id) && !(s.Mark? && s.id == id)
    requires !w.room.value.connections[id].dropped && Next(w, s, limit).room.value.connections[id].dropped
    ensures NearlyFull(Next(w, s, limit).room.value.connections[id]) || UnknownTo(s, w.room.value.connections[id].user)
  {
    hide MarkReady, Published, Sorted, MarkedMore, FlushOne, ConnectionFits, MarkingFits, Raised;
    match s
    case Mark(self, known) =>
      var revision := w.room.value.connections[self].revision;
      if 0 <= revision <= |w.committed| {
        MarkLosesForRoom(w.room.value, self, revision, w.committed[..revision], known, id);
      }
    case MarkClosed(self, revision, known) => MarkLosesForRoom(w.room.value, self, revision, w.committed[..revision], known, id);
    case MarkBegin(self, known) =>
      var c := w.room.value.connections[self];
      if 0 <= c.revision <= |w.committed| && c.revision >= w.room.value.published {
        RaisedLosesForRoom(w.room.value, self, c.revision, w.committed[..c.revision], known, id);
      }
    case MarkMore => MoreLosesForRoom(w, id);
    case FlushNext => FlushOneLosesForRoom(w.room.value, id);
    case Publish(revision) => PublishLosesForRoom(w.room.value, revision, w.committed[revision - 1], limit, id);
    case _ => OwnStepLosesForRoom(w, s, limit, id);
  }

  lemma OwnStepLosesForRoom<E>(w: World<E>, s: Step<E>, limit: nat, id: ConnectionId)
    requires Sound(w) && Enabled(w, s, limit) && Has(w, id) && Has(Next(w, s, limit), id)
    requires !s.Mark? && !s.MarkClosed? && !s.MarkBegin? && !s.MarkMore? && !s.FlushNext? && !s.Publish?
    requires !w.room.value.connections[id].dropped && Next(w, s, limit).room.value.connections[id].dropped
    ensures NearlyFull(Next(w, s, limit).room.value.connections[id])
  {
    hide ConnectionFits, MarkingFits, RoomFits;
  }

  lemma RaisedLosesForRoom<E>(room: Room<E>, self: ConnectionId, revision: int, history: seq<E>, known: set<UserId>, id: ConnectionId)
    requires id in room.connections && revision >= 0
    ensures var after := Raised(room, self, revision, history, known);
      id in after.connections && (room.connections[id].user in known ==> LosesForRoom(room.connections[id], after.connections[id]))
  {
  }

  lemma FlushOneLosesForRoom<E>(room: Room<E>, id: ConnectionId)
    requires id in room.connections && room.published >= 0 && room.published + 1 in room.pendingEvents
    ensures id in FlushOne(room).connections && LosesForRoom(room.connections[id], FlushOne(room).connections[id])
  {
  }

  lemma MoreLosesForRoom<E>(w: World<E>, id: ConnectionId)
    requires Sound(w) && w.marking.Some? && Has(w, w.marking.value.id) && Has(w, id)
    requires !w.room.value.connections[id].dropped
    ensures Has(MarkedMore(w), id) && (MarkedMore(w).room.value.connections[id].dropped ==> NearlyFull(MarkedMore(w).room.value.connections[id]))
  {
    hide FlushOne, Sorted, Read, InOrder, QueueFits, MarkingFits;
    var m, room := w.marking.value, w.room.value;
    assert ConnectionFits(room.connections[m.id], room.published, w.committed);
    hide ConnectionFits;
    if room.published + 1 in room.pendingEvents {
      FlushOneLosesForRoom(room, id);
    }
    KeptAreRevisions(room.connections[m.id], room.published, w.committed);
  }

  lemma KeptAreRevisions<E>(c: Connection<E>, published: int, committed: seq<E>)
    requires ConnectionFits(c, published, committed)
    ensures forall j :: 0 <= j < |c.pending| ==> c.pending[j].revision >= 1
  {
  }

  lemma PublishLosesForRoom<E>(room: Room<E>, revision: int, event: E, limit: int, id: ConnectionId)
    requires id in room.connections && room.published >= 0
    ensures var after := Published(room, revision, event, limit); id in after.connections && LosesForRoom(room.connections[id], after.connections[id])
  {
    hide Flush;
    FlushLosesForRoom(room, id);
    FlushLosesForRoom(room.(pendingEvents := room.pendingEvents[revision := event]), id);
  }
}
