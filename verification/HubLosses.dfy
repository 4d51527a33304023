/** What happens to a connection that does lose a message: exactly when, and what its client then
    sees. The hub leaves such a connection ready until it is closed. */
module HubLosses {
  import opened Common
  import opened Hub
  import opened HubProofs
  import HubMarking

  /** A ready connection with nothing lost loses the next event exactly when it needs that event
      and its queue is full. */
  lemma LostExactlyWhenFull<E>(c: Connection<E>, q: Queued<E>, published: int, committed: seq<E>)
    requires ConnectionFits(c, published, committed) && c.ready && !c.dropped && 0 <= published && q.revision == published + 1
    ensures Delivered(c, q).dropped <==> |c.queue| == SEND_QUEUE_SIZE && c.revision == published
    ensures Refuses(c, q) <==> Delivered(c, q).dropped
    ensures Delivered(c, q).ready && (Delivered(c, q).dropped ==> Delivered(c, q) == c.(dropped := true))
  {
    hide Read, InOrder, PendingFits;
  }

  // ------------------------------------------------------------------------ after the loss

  /** Connection `id` missed event `lost`, when it had been sent `base`; since then it has only
      been sent snapshots, notices and later events. */
  ghost predicate MissedIn<E>(room: Room<E>, id: ConnectionId, base: seq<Message<E>>, lost: int) {
    && id in room.connections && room.published >= lost && Missed(room.connections[id], base, lost)
  }

  ghost predicate Missed<E>(c: Connection<E>, base: seq<Message<E>>, lost: int) {
    && c.stage == Serving && base <= c.sent
    && forall j :: |base| <= j < |c.sent| && c.sent[j].EventAt? ==> c.sent[j].revision > lost
  }

  lemma DeliveryStaysMissed<E>(c: Connection<E>, q: Queued<E>, base: seq<Message<E>>, lost: int)
    requires Missed(c, base, lost) && q.revision > lost
    ensures Missed(Delivered(c, q), base, lost)
  {
  }

  lemma {:induction false} FlushStaysMissed<E>(room: Room<E>, id: ConnectionId, base: seq<Message<E>>, lost: int)
    requires MissedIn(room, id, base, lost)
    ensures MissedIn(Flush(room), id, base, lost)
    decreases |room.pendingEvents|
  {
    hide Missed, Delivered;
    if room.published + 1 in room.pendingEvents {
      FlushOneStaysMissed(room, id, base, lost);
      RemovalShrinks(room.pendingEvents, room.published + 1);
      FlushStaysMissed(FlushOne(room), id, base, lost);
    }
  }

  lemma FlushOneStaysMissed<E>(room: Room<E>, id: ConnectionId, base: seq<Message<E>>, lost: int)
    requires MissedIn(room, id, base, lost) && room.published + 1 in room.pendingEvents
    ensures MissedIn(FlushOne(room), id, base, lost)
  {
    hide Missed, Delivered;
    DeliveryStaysMissed(room.connections[id], Queued(room.published + 1, room.pendingEvents[room.published + 1]), base, lost);
  }

  lemma PublishStaysMissed<E>(room: Room<E>, revision: int, event: E, limit: int, id: ConnectionId, base: seq<Message<E>>, lost: int)
    requires MissedIn(room, id, base, lost)
    ensures MissedIn(Published(room, revision, event, limit), id, base, lost)
  {
    hide Missed, Flush;
    FlushStaysMissed(room, id, base, lost);
    FlushStaysMissed(room.(pendingEvents := room.pendingEvents[revision := event]), id, base, lost);
  }

  lemma RaisedStaysMissed<E>(room: Room<E>, self: ConnectionId, revision: int, history: seq<E>, known: set<UserId>,
                             id: ConnectionId, base: seq<Message<E>>, lost: int)
    requires MissedIn(room, id, base, lost) && self != id && revision >= room.published
    ensures MissedIn(Raised(room, self, revision, history, known), id, base, lost)
  {
    hide Missed, Resnapshot;
    ResnapshotStaysMissed(room.connections[id], revision, history, known, base, lost);
  }

  lemma MoreStaysMissed<E>(w: World<E>, id: ConnectionId, base: seq<Message<E>>, lost: int)
    requires MissedAt(w, id, base, lost) && w.marking.Some? && Has(w, w.marking.value.id)
    ensures MissedAt(MarkedMore(w), id, base, lost)
  {
    hide Missed, FlushOne, EnqueueEvent, EnqueuePresence, Failed, Sorted;
    if w.marking.value.progress.Flushing? && w.room.value.published + 1 in w.room.value.pendingEvents {
      FlushOneStaysMissed(w.room.value, id, base, lost);
    }
  }

  lemma MarkStaysMissed<E>(room: Room<E>, self: ConnectionId, revision: int, history: seq<E>, known: set<UserId>,
                           id: ConnectionId, base: seq<Message<E>>, lost: int)
    requires MissedIn(room, id, base, lost) && self != id
    ensures MissedIn(MarkReady(room, self, revision, history, known).room, id, base, lost)
  {
    hide Flush, CatchUp, Missed, Resnapshot;
    if revision >= room.published {
      var raised := Raised(room, self, revision, history, known);
      RaisedStaysMissed(room, self, revision, history, known, id, base, lost);
      FlushStaysMissed(raised, id, base, lost);
      assert Flush(raised) == Advance(room, self, revision, history, known);
    }
  }

  lemma ResnapshotStaysMissed<E>(c: Connection<E>, revision: int, history: seq<E>, known: set<UserId>, base: seq<Message<E>>, lost: int)
    requires Missed(c, base, lost)
    ensures Missed(Resnapshot(c, revision, history, known), base, lost)
  {
  }

  lemma InformedStaysMissed<E>(c: Connection<E>, user: UserId, online: bool, base: seq<Message<E>>, lost: int)
    requires Missed(c, base, lost)
    ensures Missed(Informed(c, user, online), base, lost)
  {
  }

  ghost predicate MissedAt<E>(w: World<E>, id: ConnectionId, base: seq<Message<E>>, lost: int) {
    w.room.Some? && MissedIn(w.room.value, id, base, lost) && !IsMarking(w, id)
  }

  /** Every step but closing it keeps a connection that missed an event in that condition. */
  lemma StepStaysMissed<E>(w: World<E>, s: Step<E>, limit: nat, id: ConnectionId, base: seq<Message<E>>, lost: int)
    requires MissedAt(w, id, base, lost) && Enabled(w, s, limit) && s != Close(id)
    ensures MissedAt(Next(w, s, limit), id, base, lost)
  {
    hide Published, MarkReady, FlushOne, Informed, Raised, MarkedMore, Missed, EnqueueInitial, EnqueueState, EnqueueErrorAndState, Noted;
    if Joins(s) == Some(id) {
      ServingIsNotJoining(w.room.value.connections[id], base, lost);
    }
    match s
    case Mark(self, known) =>
      var revision := w.room.value.connections[self].revision;
      if 0 <= revision <= |w.committed| {
        MarkStaysMissed(w.room.value, self, revision, w.committed[..revision], known, id, base, lost);
      }
    case MarkClosed(self, revision, known) =>
      MarkStaysMissed(w.room.value, self, revision, w.committed[..revision], known, id, base, lost);
    case MarkBegin(self, known) =>
      var revision := w.room.value.connections[self].revision;
      if 0 <= revision <= |w.committed| && revision >= w.room.value.published {
        RaisedStaysMissed(w.room.value, self, revision, w.committed[..revision], known, id, base, lost);
      }
    case MarkMore =>
      MoreStaysMissed(w, id, base, lost);
    case Publish(revision) =>
      PublishStaysMissed(w.room.value, revision, w.committed[revision - 1], limit, id, base, lost);
    case FlushNext =>
      FlushOneStaysMissed(w.room.value, id, base, lost);
    case Announce(user, online) =>
      InformedStaysMissed(w.room.value.connections[id], user, online, base, lost);
    case Initial(_, _) =>
    case Restate(other, revision) =>
      if other == id {
        RestateStaysMissed(w.room.value.connections[id], revision, w.committed[..revision], base, lost);
      }
    case ErrorAndState(other, revision) =>
      if other == id {
        ErrorStaysMissed(w.room.value.connections[id], revision, w.committed[..revision], base, lost);
      }
    case Note(other) =>
      if other == id {
        NoteStaysMissed(w.room.value.connections[id], base, lost);
      }
    case Close(other) =>
      assert id in w.room.value.connections - {other};
    case Register(_, _, _) =>
    case Write(other) =>
      if other == id {
        WriteStaysMissed(w.room.value.connections[id], base, lost);
      }
    case Commit(_) =>
    case Arrive(_) =>
  }

  // The connection a step can only be about before it serves.
  function Joins<E>(s: Step<E>): Option<ConnectionId> {
    match s
    case Initial(id, _) => Some(id)
    case Mark(id, _) => Some(id)
    case MarkBegin(id, _) => Some(id)
    case _ => None
  }

  lemma ServingIsNotJoining<E>(c: Connection<E>, base: seq<Message<E>>, lost: int)
    requires Missed(c, base, lost)
    ensures c.stage == Serving
  {
  }

  lemma WriteStaysMissed<E>(c: Connection<E>, base: seq<Message<E>>, lost: int)
    requires Missed(c, base, lost) && c.queue != []
    ensures Missed(c.(queue := c.queue[1..]), base, lost)
  {
  }

  lemma RestateStaysMissed<E>(c: Connection<E>, revision: nat, history: seq<E>, base: seq<Message<E>>, lost: int)
    requires Missed(c, base, lost)
    ensures Missed(EnqueueState(c, StateAt(revision, history), revision).1, base, lost) && Missed(c.(dropped := true), base, lost)
  {
  }

  lemma ErrorStaysMissed<E>(c: Connection<E>, revision: nat, history: seq<E>, base: seq<Message<E>>, lost: int)
    requires Missed(c, base, lost)
    ensures Missed(EnqueueErrorAndState(c, revision, history).1, base, lost) && Missed(c.(dropped := true), base, lost)
  {
  }

  lemma NoteStaysMissed<E>(c: Connection<E>, base: seq<Message<E>>, lost: int)
    requires Missed(c, base, lost)
    ensures Missed(Noted(c), base, lost)
  {
  }

  lemma {:induction false} RunStaysMissed<E>(w: World<E>, steps: seq<Step<E>>, limit: nat, id: ConnectionId, base: seq<Message<E>>, lost: int)
    requires MissedAt(w, id, base, lost) && forall i :: 0 <= i < |steps| ==> steps[i] != Close(id)
    ensures MissedAt(Run(w, steps, limit), id, base, lost)
  {
    hide MissedAt, Next, Enabled;
    if steps != [] {
      RunStaysMissed(w, steps[..|steps| - 1], limit, id, base, lost);
      var before := Run(w, steps[..|steps| - 1], limit);
      if Enabled(before, steps[|steps| - 1], limit) {
        StepStaysMissed(before, steps[|steps| - 1], limit, id, base, lost);
      }
    }
  }

  /** Messages that say nothing about the game leave the client where it was. */
  lemma {:induction false} QuietKeepsReplica<E>(base: seq<Message<E>>, more: seq<Message<E>>)
    requires forall j :: 0 <= j < |more| ==> Quiet(more[j])
    ensures Read(base + more) == Read(base)
  {
    if more == [] {
      assert base + more == base;
    } else {
      var front, last := more[..|more| - 1], more[|more| - 1];
      QuietKeepsReplica(base, front);
      assert base + more == base + front + [last];
      ReadMore(base + front, last);
    }
  }

  // ------------------------------------------------------------------------- how it is lost

  /** The connection has missed something: the watermark is past its revision. */
  predicate Behind<E>(w: World<E>, id: ConnectionId) {
    Has(w, id) && w.room.value.published > w.room.value.connections[id].revision
  }

  // The steps that hand out events or snapshots to connections other than their own.
  predicate HandsOut<E>(s: Step<E>) {
    s.Publish? || s.FlushNext? || s.Mark? || s.MarkClosed? || s.MarkBegin? || s.MarkMore?
  }

  /** In the middle of a flush: the client shows everything up to the connection's revision, and if
      that is behind the watermark, the connection can take no further event. */
  ghost predicate InStep<E>(c: Connection<E>, published: int, committed: seq<E>) {
    && c.stage == Serving && 0 <= c.revision <= |committed|
    && Read(c.sent) == Showing(committed[..c.revision])
    && (c.revision < published ==> c.dropped && (c.ready ==> |c.queue| >= SEND_QUEUE_SIZE))
    && (c.dropped ==> c.revision < published)
  }

  lemma DeliveryInStep<E>(c: Connection<E>, q: Queued<E>, published: int, committed: seq<E>)
    requires InStep(c, published, committed) && q.revision == published + 1 && 0 <= published < |committed| && q.event == committed[published]
    requires !c.ready ==> c.dropped
    ensures InStep(Delivered(c, q), published + 1, committed) && (!Delivered(c, q).ready ==> Delivered(c, q).dropped)
    ensures Delivered(c, q).dropped && !c.dropped ==> Delivered(c, q).sent == c.sent
  {
    hide Read;
    if c.ready && c.revision == published && HasRoom(c, 1) {
      ReadMore(c.sent, EventAt(q.revision, q.event));
      assert committed[..published + 1] == committed[..published] + [committed[published]];
    }
  }

  ghost predicate RoomInStep<E>(room: Room<E>, id: ConnectionId, committed: seq<E>) {
    && 0 <= room.published <= |committed| && id in room.connections
    && (forall r :: r in room.pendingEvents ==> room.published < r <= |committed| && room.pendingEvents[r] == committed[r - 1])
    && InStep(room.connections[id], room.published, committed)
    && (!room.connections[id].ready ==> room.connections[id].dropped)
  }

  lemma FlushOneInStep<E>(room: Room<E>, id: ConnectionId, committed: seq<E>)
    requires RoomInStep(room, id, committed) && room.published + 1 in room.pendingEvents
    ensures RoomInStep(FlushOne(room), id, committed)
  {
    hide InStep, Delivered;
    DeliveryInStep(room.connections[id], Queued(room.published + 1, room.pendingEvents[room.published + 1]), room.published, committed);
  }

  lemma {:induction false} FlushInStep<E>(room: Room<E>, id: ConnectionId, committed: seq<E>)
    requires RoomInStep(room, id, committed)
    ensures RoomInStep(Flush(room), id, committed)
    decreases |room.pendingEvents|
  {
    hide RoomInStep;
    if room.published + 1 in room.pendingEvents {
      FlushOneInStep(room, id, committed);
      RemovalShrinks(room.pendingEvents, room.published + 1);
      FlushInStep(FlushOne(room), id, committed);
    }
  }

  lemma RaisedInStep<E>(room: Room<E>, self: ConnectionId, revision: int, committed: seq<E>, known: set<UserId>, id: ConnectionId)
    requires RoomInStep(room, id, committed) && self != id && 0 <= revision <= |committed| && revision >= room.published
    ensures RoomInStep(Raised(room, self, revision, committed[..revision], known), id, committed)
  {
    hide Read;
    var c := room.connections[id];
    if c.ready && c.revision < revision && HasRoom(c, 1) {
      ReadMore(c.sent, StateAt(revision, committed[..revision]));
    }
  }

  lemma MarkInStep<E>(room: Room<E>, self: ConnectionId, revision: int, committed: seq<E>, known: set<UserId>, id: ConnectionId)
    requires RoomInStep(room, id, committed) && self != id && 0 <= revision <= |committed|
    ensures RoomInStep(MarkReady(room, self, revision, committed[..revision], known).room, id, committed)
  {
    hide InStep, Flush, CatchUp, Raised;
    if revision >= room.published {
      RaisedInStep(room, self, revision, committed, known, id);
      var raised := Raised(room, self, revision, committed[..revision], known);
      FlushInStep(raised, id, committed);
      HubMarking.RaisedIsAdvance(room, self, revision, committed[..revision], known);
    }
  }

  lemma ReadyIsInStep<E>(room: Room<E>, id: ConnectionId, committed: seq<E>)
    requires RoomFits(room, committed) && id in room.connections && room.connections[id].ready && !room.connections[id].dropped
    ensures RoomInStep(room, id, committed)
  {
    hide Read, InOrder, PendingFits, QueueFits;
  }

  lemma PublishInStep<E>(room: Room<E>, revision: int, committed: seq<E>, limit: int, id: ConnectionId)
    requires RoomInStep(room, id, committed) && 1 <= revision <= |committed|
    ensures RoomInStep(Published(room, revision, committed[revision - 1], limit), id, committed)
  {
    hide InStep, Flush;
    FlushInStep(room, id, committed);
    if revision > room.published {
      FlushInStep(room.(pendingEvents := room.pendingEvents[revision := committed[revision - 1]]), id, committed);
    }
  }

  /** Whatever step hands out events, afterwards the client of a connection that had lost nothing is
      in step with its connection, which has lost something exactly if it is behind the watermark. */
  lemma HandingOutKeepsStep<E>(w: World<E>, s: Step<E>, limit: nat, id: ConnectionId)
    requires Sound(w) && Enabled(w, s, limit) && HandsOut(s) && Has(w, id)
    requires w.room.value.connections[id].ready && !w.room.value.connections[id].dropped
    ensures Has(Next(w, s, limit), id) && RoomInStep(Next(w, s, limit).room.value, id, Next(w, s, limit).committed)
    ensures !IsMarking(Next(w, s, limit), id)
  {
    hide InStep, Published, MarkReady, Raised, FlushOne, MarkedMore;
    var room := w.room.value;
    ReadyIsInStep(room, id, w.committed);
    ReadyIsNotMarking(w, id);
    hide Sound, ConnectionFits;
    match s
    case Mark(self, known) =>
      var revision := room.connections[self].revision;
      if 0 <= revision <= |w.committed| {
        MarkInStep(room, self, revision, w.committed, known, id);
      }
    case MarkClosed(self, revision, known) => MarkInStep(room, self, revision, w.committed, known, id);
    case MarkBegin(self, known) =>
      var revision := room.connections[self].revision;
      if 0 <= revision <= |w.committed| && revision >= room.published {
        RaisedInStep(room, self, revision, w.committed, known, id);
      }
    case MarkMore => MoreInStep(w, id);
    case Publish(revision) => PublishInStep(room, revision, w.committed, limit, id);
    case FlushNext => FlushOneInStep(room, id, w.committed);
  }

  lemma MoreInStep<E>(w: World<E>, id: ConnectionId)
    requires w.room.Some? && RoomInStep(w.room.value, id, w.committed) && w.marking.Some? && Has(w, w.marking.value.id) && w.marking.value.id != id
    ensures Has(MarkedMore(w), id) && RoomInStep(MarkedMore(w).room.value, id, MarkedMore(w).committed) && !IsMarking(MarkedMore(w), id)
  {
    hide InStep, FlushOne, EnqueueEvent, EnqueuePresence, Failed, Sorted;
    if w.marking.value.progress.Flushing? && w.room.value.published + 1 in w.room.value.pendingEvents {
      FlushOneInStep(w.room.value, id, w.committed);
    }
  }

  // A ready connection serves; one that is being marked does not yet.
  lemma ReadyIsNotMarking<E>(w: World<E>, id: ConnectionId)
    requires Sound(w) && Has(w, id) && w.room.value.connections[id].ready
    ensures !IsMarking(w, id) && w.room.value.connections[id].stage == Serving
    ensures forall other :: Has(w, other) && w.room.value.connections[other].stage == Handshaking ==> other != id
  {
    hide Read, InOrder, PendingFits, QueueFits;
  }

  /** Any other step that makes a ready connection lose a message loses a notice or a requested
      snapshot, and no event: the connection is not behind. */
  lemma OtherLossesAreNoEvents<E>(w: World<E>, s: Step<E>, limit: nat, id: ConnectionId)
    requires Sound(w) && Enabled(w, s, limit) && !HandsOut(s) && Has(w, id) && Has(Next(w, s, limit), id)
    requires w.room.value.connections[id].ready && !w.room.value.connections[id].dropped
    ensures !Behind(Next(w, s, limit), id)
  {
    ReadyIsInStep(w.room.value, id, w.committed);
    hide Read, Sound, ConnectionFits, RoomFits;
  }

  /** The converse of the no-gap theorem. A ready connection of any run, with nothing lost so far,
      loses an event by any step, and is not closed: if `k` is the first message about the game
      that it is sent from then on, its client sees a gap there exactly when that is an event,
      and none when it is a snapshot. */
  lemma GapExactlyIfAnEventComesFirst<E>(before: seq<Step<E>>, s: Step<E>, steps: seq<Step<E>>, limit: nat, id: ConnectionId, k: nat)
    requires Has(Run(Start<E>(), before, limit), id)
    requires var w := Run(Start<E>(), before, limit);
      var c := w.room.value.connections[id];
      c.ready && !c.dropped && Enabled(w, s, limit) && Behind(Next(w, s, limit), id)
    requires forall i :: 0 <= i < |steps| ==> steps[i] != Close(id)
    ensures var lost := Next(Run(Start<E>(), before, limit), s, limit);
      var base := lost.room.value.connections[id].sent;
      var later := Run(lost, steps, limit);
      && HandsOut(s) && lost.room.value.connections[id].dropped
      && Has(later, id) && base <= later.room.value.connections[id].sent
      && var sent := later.room.value.connections[id].sent;
         (|base| <= k < |sent| && !Quiet(sent[k]) && (forall j :: |base| <= j < k ==> Quiet(sent[j])) ==>
            && Read(sent[..k]) == Read(base) && Read(base).Showing?
            && (Read(sent[..k + 1]) == Lost <==> sent[k].EventAt?))
  {
    hide Read, Run, Next, Enabled, Sound, InStep;
    var w := Run(Start<E>(), before, limit);
    StartIsSound<E>();
    RunKeepsSound(Start<E>(), before, limit);
    if !HandsOut(s) {
      OtherLossesAreNoEvents(w, s, limit, id);
    }
    HandingOutKeepsStep(w, s, limit, id);
    var lost := Next(w, s, limit);
    var c := lost.room.value.connections[id];
    var base := c.sent;
    BehindIsMissed(c, lost.room.value.published, lost.committed);
    RunStaysMissed(lost, steps, limit, id, base, c.revision + 1);
    var sent := Run(lost, steps, limit).room.value.connections[id].sent;
    if |base| <= k < |sent| && !Quiet(sent[k]) && forall j :: |base| <= j < k ==> Quiet(sent[j]) {
      assert sent[..k] == base + sent[|base|..k];
      QuietKeepsReplica(base, sent[|base|..k]);
      assert sent[..k + 1] == sent[..k] + [sent[k]];
      ReadMore(sent[..k], sent[k]);
    }
  }

  lemma BehindIsMissed<E>(c: Connection<E>, published: int, committed: seq<E>)
    requires InStep(c, published, committed) && c.revision < published
    ensures c.dropped && Missed(c, c.sent, c.revision + 1)
    ensures Read(c.sent).Showing? && |Read(c.sent).history| == c.revision
  {
    hide Read;
  }

  // ------------------------------------------------------------------------------ an example

  function Opening<E>(notes: nat): seq<Step<E>> {
    if notes == 0 then [Register(1, 1, false), Initial(1, 0), Mark(1, {})] else Opening(notes - 1) + [Note(1)]
  }

  lemma RunOneMore<E>(steps: seq<Step<E>>, s: Step<E>, limit: nat)
    ensures var w := Run(Start<E>(), steps, limit);
      Run(Start<E>(), steps + [s], limit) == if Enabled(w, s, limit) then Next(w, s, limit) else w
  {
    assert (steps + [s])[..|steps|] == steps;
  }

  // One ready connection, which has been shown none of the `n` published events.
  predicate Idle<E>(w: World<E>, n: nat, queued: nat) {
    && |w.committed| == n && w.marking.None? && w.room.Some? && w.room.value.published == n && w.room.value.pendingEvents == map[]
    && w.room.value.connections.Keys == {1} && var c := w.room.value.connections[1];
      c.ready && c.stage == Serving && c.revision == 0 && |c.queue| == queued && Read(c.sent) == Showing([])
  }

  lemma ConnectionOpens<E>(limit: nat)
    ensures Idle(Run(Start<E>(), Opening<E>(0), limit), 0, 2)
  {
    hide Sorted, Advance, Read;
    var a: seq<Step<E>> := [Register(1, 1, false)];
    assert a == [] + [Register(1, 1, false)];
    RunOneMore<E>([], Register(1, 1, false), limit);
    RunOneMore(a, Initial(1, 0), limit);
    RunOneMore(a + [Initial(1, 0)], Mark(1, {}), limit);
    assert Opening<E>(0) == a + [Initial(1, 0)] + [Mark(1, {})];
    var w := Run(Start<E>(), a + [Initial(1, 0)], limit);
    var c := w.room.value.connections[1];
    assert c == Connection(1, Handshaking, false, [], false, map[], 0, [Connected(0), StateAt(0, [])], [Connected(0), StateAt(0, [])], false);
    var connected: Message<E>, shown: Message<E> := Connected(0), StateAt(0, []);
    ReadMore([], connected);
    ReadMore([connected], shown);
    assert [connected, shown] == [connected] + [shown] && [connected] == [] + [connected];
    NothingToFlush(w.room.value, 1, 0, [], {});
  }

  lemma NothingToFlush<E>(room: Room<E>, self: ConnectionId, revision: int, history: seq<E>, known: set<UserId>)
    requires room.pendingEvents == map[] && revision == room.published
    ensures Advance(room, self, revision, history, known) == room
  {
  }

  /** Errors alone can fill the queue of a connection whose writer is stuck. */
  lemma {:induction false} NotesFill<E>(n: nat, limit: nat)
    requires n <= SEND_QUEUE_SIZE - 2
    ensures Idle(Run(Start<E>(), Opening<E>(n), limit), 0, 2 + n)
  {
    if n == 0 {
      ConnectionOpens<E>(limit);
    } else {
      NotesFill<E>(n - 1, limit);
      RunOneMore(Opening<E>(n - 1), Note(1), limit);
      NoteKeepsIdle(Run(Start<E>(), Opening<E>(n - 1), limit), 1 + n, limit);
    }
    hide Run, Idle;
  }

  lemma NoteKeepsIdle<E>(w: World<E>, queued: nat, limit: nat)
    requires Idle(w, 0, queued) && queued < SEND_QUEUE_SIZE
    ensures Enabled(w, Note(1), limit) && Idle(Next(w, Note(1), limit), 0, queued + 1)
  {
    hide Read;
    ReadMore(w.room.value.connections[1].sent, Notice);
  }

  lemma PublishNext<E>(room: Room<E>, event: E, limit: nat)
    requires room.pendingEvents == map[] && 0 <= room.published < limit
    ensures var waiting := room.(pendingEvents := map[room.published + 1 := event]);
      Published(room, room.published + 1, event, limit) == FlushOne(waiting) && FlushOne(waiting).pendingEvents == map[]
  {
    hide DeliveredToAll;
    var waiting := room.(pendingEvents := map[room.published + 1 := event]);
    assert FlushOne(waiting).pendingEvents == map[];
    assert Flush(FlushOne(waiting)) == FlushOne(waiting);
  }

  function PublishOne<E>(w: World<E>, event: E, limit: nat): World<E>
    requires |w.committed| < limit && w.marking.None?
  {
    Next(Next(w, Commit(event), limit), Publish(|w.committed| + 1), limit)
  }

  lemma FullQueueLoses<E>(w: World<E>, event: E, limit: nat)
    requires Idle(w, 0, SEND_QUEUE_SIZE) && limit > 0
    ensures Idle(PublishOne(w, event, limit), 1, SEND_QUEUE_SIZE)
  {
    hide Read, Published;
    PublishNext(w.room.value, event, limit);
  }

  lemma WriteMakesRoom<E>(w: World<E>, limit: nat)
    requires Idle(w, 1, SEND_QUEUE_SIZE)
    ensures Enabled(w, Write(1), limit) && Idle(Next(w, Write(1), limit), 1, SEND_QUEUE_SIZE - 1)
  {
    hide Read;
  }

  lemma NextEventSkips<E>(w: World<E>, event: E, limit: nat)
    requires Idle(w, 1, SEND_QUEUE_SIZE - 1) && limit > 1
    ensures var after := PublishOne(w, event, limit);
      && Has(after, 1) && after.room.value.connections[1].ready && after.room.value.connections[1].revision == 2
      && Read(after.room.value.connections[1].sent) == Lost
  {
    hide Read, Published;
    PublishNext(w.room.value, event, limit);
    ReadMore(w.room.value.connections[1].sent, EventAt(2, event));
  }

  /** A run of the whole protocol in which a client is shown the second event without the first:
      its queue is full when the first is published, and has room again for the second. */
  lemma FullConnectionMissesAnEvent<E>(first: E, second: E, limit: nat)
    requires limit >= 2
    ensures exists steps :: var w := Run(Start<E>(), steps, limit);
      && w.committed == [first, second] && Has(w, 1)
      && w.room.value.connections[1].ready && Read(w.room.value.connections[1].sent) == Lost
  {
    hide Run, Opening, Idle;
    var a := Opening<E>(SEND_QUEUE_SIZE - 2);
    var w := Run(Start<E>(), a, limit);
    NotesFill<E>(SEND_QUEUE_SIZE - 2, limit);
    IdleFacts(w, 0, SEND_QUEUE_SIZE);
    var b := a + [Commit(first)] + [Publish(1)];
    RunPublishOne(a, first, limit);
    FullQueueLoses(w, first, limit);
    var w1 := Run(Start<E>(), b, limit);
    IdleFacts(w1, 1, SEND_QUEUE_SIZE);
    RunOneMore(b, Write(1), limit);
    WriteMakesRoom(w1, limit);
    var c := b + [Write(1)];
    var w2 := Run(Start<E>(), c, limit);
    IdleFacts(w2, 1, SEND_QUEUE_SIZE - 1);
    RunPublishOne(c, second, limit);
    NextEventSkips(w2, second, limit);
    var steps := c + [Commit(second)] + [Publish(2)];
    assert Run(Start<E>(), steps, limit).committed == [first, second];
  }

  lemma IdleFacts<E>(w: World<E>, n: nat, queued: nat)
    requires Idle(w, n, queued)
    ensures |w.committed| == n && w.marking.None?
  {
  }

  lemma RunPublishOne<E>(steps: seq<Step<E>>, event: E, limit: nat)
    requires |Run(Start<E>(), steps, limit).committed| < limit && Run(Start<E>(), steps, limit).marking.None?
    ensures var w := Run(Start<E>(), steps, limit);
      Run(Start<E>(), steps + [Commit(event)] + [Publish(|w.committed| + 1)], limit) == PublishOne(w, event, limit)
  {
    hide Published, Run;
    var w := Run(Start<E>(), steps, limit);
    RunOneMore(steps, Commit(event), limit);
    RunOneMore(steps + [Commit(event)], Publish(|w.committed| + 1), limit);
  }
}
