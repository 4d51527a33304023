/** Presence through the hub: a connection that wants to know is told of every player the state that was
    announced last, however its handshake interleaves with the announcements. */
module HubPresence {
  import opened Common
  import opened Hub
  import opened HubProofs
  import opened HubDelivery

  /** What the messages say last about a player. */
  function LastSaid<E>(messages: seq<Message<E>>, user: UserId): Option<bool> {
    if messages == [] then None
    else
      var last := messages[|messages| - 1];
      if last.PresenceOf? && last.user == user then Some(last.online) else LastSaid(messages[..|messages| - 1], user)
  }

  /** What has been announced last about a player since the connection registered. */
  function LastAnnounced<E>(steps: seq<Step<E>>, limit: nat, id: ConnectionId, user: UserId): Option<bool> {
    if steps == [] then None
    else
      var front, last := steps[..|steps| - 1], steps[|steps| - 1];
      if !Enabled(Run(Start<E>(), front, limit), last, limit) then LastAnnounced(front, limit, id, user)
      else Heard(LastAnnounced(front, limit, id, user), last, id, user)
  }

  function Heard<E>(before: Option<bool>, s: Step<E>, id: ConnectionId, user: UserId): Option<bool> {
    match s
    case Register(joining, _, _) => if joining == id then None else before
    case Announce(u, online) => if u == user then Some(online) else before
    case _ => before
  }

  lemma SaidAfterPush<E>(c: Connection<E>, m: Message<E>, user: UserId)
    ensures LastSaid(Push(c, m).sent, user) == if m.PresenceOf? && m.user == user then Some(m.online) else LastSaid(c.sent, user)
  {
    assert (c.sent + [m])[..|c.sent|] == c.sent;
  }

  // ------------------------------------------------------------ one connection, one player

  // What a connection has still to say about the player, and has said.
  ghost predicate UpToDate<E>(c: Connection<E>, told: bool, user: UserId, announced: Option<bool>) {
    c.presenceEnabled && !c.dropped ==>
      if c.ready then LastSaid(c.sent, user) == announced
      else
        && announced == (if user in c.held then Some(c.held[user]) else None)
        && LastSaid(c.sent, user) == (if told then announced else None)
  }

  // The readiness step on its way has come past the player.
  ghost predicate ToldAlready<E>(w: World<E>, id: ConnectionId, user: UserId)
    requires Has(w, id)
  {
    IsMarking(w, id) && w.marking.value.progress.Telling?
    && var users := Sorted(w.room.value.connections[id].held.Keys);
       exists j :: 0 <= j < w.marking.value.progress.i && j < |users| && users[j] == user
  }

  /** Nothing about players: the rest of the connection's life. */
  predicate Quietly<E>(c: Connection<E>, d: Connection<E>, user: UserId) {
    && (c.dropped ==> d.dropped) && d.presenceEnabled == c.presenceEnabled
    && (!d.dropped ==> d.ready == c.ready && d.held == c.held && LastSaid(d.sent, user) == LastSaid(c.sent, user))
  }

  lemma QuietlyKeeps<E>(c: Connection<E>, d: Connection<E>, told: bool, user: UserId, announced: Option<bool>)
    requires Quietly(c, d, user) && UpToDate(c, told, user, announced)
    ensures UpToDate(d, told, user, announced)
  {
    hide LastSaid;
  }

  lemma DeliveredQuietly<E>(c: Connection<E>, q: Queued<E>, user: UserId)
    ensures Quietly(c, Delivered(c, q), user)
  {
    hide LastSaid;
    SaidAfterPush(c, EventAt(q.revision, q.event), user);
  }

  lemma {:induction false} FlushQuietly<E>(room: Room<E>, id: ConnectionId, user: UserId)
    requires id in room.connections
    ensures id in Flush(room).connections && Quietly(room.connections[id], Flush(room).connections[id], user)
    decreases |room.pendingEvents|
  {
    hide LastSaid, Delivered;
    if room.published + 1 in room.pendingEvents {
      RemovalShrinks(room.pendingEvents, room.published + 1);
      DeliveredQuietly(room.connections[id], Queued(room.published + 1, room.pendingEvents[room.published + 1]), user);
      FlushQuietly(FlushOne(room), id, user);
    }
  }

  lemma PublishQuietly<E>(room: Room<E>, revision: int, event: E, limit: int, id: ConnectionId, user: UserId)
    requires id in room.connections
    ensures var after := Published(room, revision, event, limit); id in after.connections && Quietly(room.connections[id], after.connections[id], user)
  {
    hide Flush, LastSaid;
    FlushQuietly(room, id, user);
    FlushQuietly(room.(pendingEvents := room.pendingEvents[revision := event]), id, user);
  }

  lemma RaisedQuietly<E>(room: Room<E>, self: ConnectionId, revision: int, history: seq<E>, known: set<UserId>, id: ConnectionId, user: UserId)
    requires id in room.connections
    ensures var after := Raised(room, self, revision, history, known);
      id in after.connections && Quietly(room.connections[id], after.connections[id], user)
  {
    hide LastSaid;
    SaidAfterPush(room.connections[id], StateAt(revision, history), user);
  }

  // ----------------------------------------------------------------------- becoming ready

  lemma {:induction false} DrainQuietly<E>(c: Connection<E>, revision: int, n: nat, user: UserId)
    requires n <= |c.pending|
    ensures var d := DrainPending(c, revision, n).1;
      Quietly(c, d, user) && d.held == c.held && d.dropped == c.dropped && LastSaid(d.sent, user) == LastSaid(c.sent, user)
  {
    hide LastSaid;
    if n > 0 {
      DrainQuietly(c, revision, n - 1, user);
      SaidAfterPush(DrainPending(c, revision, n - 1).1, EventAt(c.pending[n - 1].revision, c.pending[n - 1].event), user);
    }
  }

  lemma {:induction false} TellSays<E>(c: Connection<E>, held: map<UserId, bool>, users: seq<UserId>, n: nat, user: UserId)
    requires n <= |users| && forall i :: 0 <= i < n ==> users[i] in held
    ensures var (ok, d) := TellHeld(c, held, users, n);
      ok ==> LastSaid(d.sent, user) == if user in users[..n] then Some(held[user]) else LastSaid(c.sent, user)
  {
    hide LastSaid;
    if n > 0 {
      TellSays(c, held, users, n - 1, user);
      assert users[..n] == users[..n - 1] + [users[n - 1]];
      SaidAfterPush(TellHeld(c, held, users, n - 1).1, PresenceOf(users[n - 1], held[users[n - 1]]), user);
    }
  }

  lemma CatchUpSays<E>(c: Connection<E>, revision: int, user: UserId)
    ensures var (queued, d) := CatchUp(c, revision);
      queued ==> LastSaid(d.sent, user) == if user in c.held then Some(c.held[user]) else LastSaid(c.sent, user)
  {
    hide LastSaid, DrainPending, TellHeld;
    DrainQuietly(c, revision, |c.pending|, user);
    var users := Sorted(c.held.Keys);
    TellSays(DrainPending(c, revision, |c.pending|).1, c.held, users, |users|, user);
    assert users[..|users|] == users;
  }

  lemma CatchUpKeeps<E>(c: Connection<E>, revision: int)
    ensures var d := CatchUp(c, revision).1; d.presenceEnabled == c.presenceEnabled && d.dropped == c.dropped
  {
    hide DrainPending, TellHeld;
    DrainKeepsOptions(c, revision, |c.pending|);
    var users := Sorted(c.held.Keys);
    TellKeepsOptions(DrainPending(c, revision, |c.pending|).1, c.held, users, |users|);
  }

  lemma {:induction false} DrainKeepsOptions<E>(c: Connection<E>, revision: int, n: nat)
    requires n <= |c.pending|
    ensures var d := DrainPending(c, revision, n).1; d.presenceEnabled == c.presenceEnabled && d.dropped == c.dropped
  {
    if n > 0 {
      DrainKeepsOptions(c, revision, n - 1);
    }
  }

  lemma {:induction false} TellKeepsOptions<E>(c: Connection<E>, held: map<UserId, bool>, users: seq<UserId>, n: nat)
    requires n <= |users| && forall i :: 0 <= i < n ==> users[i] in held
    ensures var d := TellHeld(c, held, users, n).1; d.presenceEnabled == c.presenceEnabled && d.dropped == c.dropped
  {
    if n > 0 {
      TellKeepsOptions(c, held, users, n - 1);
    }
  }

  lemma MarkUpToDate<E>(room: Room<E>, self: ConnectionId, revision: int, history: seq<E>, known: set<UserId>, id: ConnectionId,
                        user: UserId, announced: Option<bool>)
    requires id in room.connections && UpToDate(room.connections[id], false, user, announced)
    requires id == self ==> !room.connections[id].ready
    ensures var after := MarkReady(room, self, revision, history, known).room;
      id in after.connections && UpToDate(after.connections[id], false, user, announced)
  {
    hide Flush, CatchUp, LastSaid, Raised;
    if revision >= room.published {
      var raised := Raised(room, self, revision, history, known);
      assert Advance(room, self, revision, history, known) == Flush(raised) by {
        AdvanceIsFlush(room, self, revision, history, known);
      }
      hide Advance;
      RaisedQuietly(room, self, revision, history, known, id, user);
      FlushQuietly(raised, id, user);
      QuietlyKeeps(room.connections[id], raised.connections[id], false, user, announced);
      QuietlyKeeps(raised.connections[id], Flush(raised).connections[id], false, user, announced);
      if id == self {
        var c := Flush(raised).connections[id];
        CatchUpSays(c, revision, user);
        CatchUpKeeps(c, revision);
      }
    }
  }

  lemma AdvanceIsFlush<E>(room: Room<E>, self: ConnectionId, revision: int, history: seq<E>, known: set<UserId>)
    ensures Advance(room, self, revision, history, known) == Flush(Raised(room, self, revision, history, known))
  {
    hide Flush, ResnapshotPeers;
  }

  // --------------------------------------------------------------------------- every step

  ghost predicate UpToDateAt<E>(w: World<E>, id: ConnectionId, user: UserId, announced: Option<bool>) {
    Has(w, id) ==> UpToDate(w.room.value.connections[id], ToldAlready(w, id, user), user, announced)
  }

  lemma NobodyToldYet<E>(w: World<E>, id: ConnectionId, user: UserId)
    requires Has(w, id) && (w.marking.None? || w.marking.value.id != id || !w.marking.value.progress.Telling?)
    ensures !ToldAlready(w, id, user)
  {
  }

  // A step that leaves the readiness step on its way where it is, and tells the connection of no player.
  lemma QuietStep<E>(w: World<E>, v: World<E>, id: ConnectionId, user: UserId, announced: Option<bool>)
    requires UpToDateAt(w, id, user, announced) && Has(w, id) && Has(v, id)
    requires v.marking == w.marking || (w.marking.None? && v.marking.Some? && v.marking.value.progress.Flushing?)
    requires Quietly(w.room.value.connections[id], v.room.value.connections[id], user)
    ensures UpToDateAt(v, id, user, announced)
  {
    hide LastSaid, Sorted;
    if v.room.value.connections[id].dropped {
    } else if v.room.value.connections[id].held == w.room.value.connections[id].held && v.marking == w.marking {
      assert ToldAlready(v, id, user) == ToldAlready(w, id, user);
    } else {
      NobodyToldYet(w, id, user);
      NobodyToldYet(v, id, user);
    }
  }

  lemma AnnouncedUpToDate<E>(c: Connection<E>, u: UserId, online: bool, user: UserId, announced: Option<bool>)
    requires UpToDate(c, false, user, announced)
    ensures UpToDate(Informed(c, u, online), false, user, if u == user then Some(online) else announced)
  {
    hide LastSaid;
    SaidAfterPush(c, PresenceOf(u, online), user);
  }

  lemma TellingUpToDate<E>(w: World<E>, user: UserId, announced: Option<bool>)
    requires Sound(w) && w.marking.Some? && Has(w, w.marking.value.id) && UpToDateAt(w, w.marking.value.id, user, announced)
    requires w.marking.value.progress.Telling?
    ensures UpToDateAt(MarkedMore(w), w.marking.value.id, user, announced)
  {
    hide LastSaid, ConnectionFits, EnqueueEvent, FlushOne;
    var m, i := w.marking.value, w.marking.value.progress.i;
    var c := w.room.value.connections[m.id];
    var users := Sorted(c.held.Keys);
    hide Sorted;
    if i < |users| && HasRoom(c, 1) {
      SaidAfterPush(c, PresenceOf(users[i], c.held[users[i]]), user);
      assert ToldAlready(MarkedMore(w), m.id, user) <==> ToldAlready(w, m.id, user) || users[i] == user;
    } else if i >= |users| {
      assert ToldAlready(w, m.id, user) <==> user in users;
      NobodyToldYet(MarkedMore(w), m.id, user);
    }
  }

  lemma SendingUpToDate<E>(w: World<E>, user: UserId, announced: Option<bool>)
    requires Sound(w) && w.marking.Some? && Has(w, w.marking.value.id) && UpToDateAt(w, w.marking.value.id, user, announced)
    requires !w.marking.value.progress.Telling?
    ensures UpToDateAt(MarkedMore(w), w.marking.value.id, user, announced)
  {
    hide LastSaid, ConnectionFits, Delivered, EnqueuePresence, EnqueueEvent, ToldAlready;
    var m, room := w.marking.value, w.room.value;
    var c := room.connections[m.id];
    NobodyToldYet(w, m.id, user);
    if m.progress.Flushing? && room.published + 1 in room.pendingEvents {
      DeliveredQuietly(c, Queued(room.published + 1, room.pendingEvents[room.published + 1]), user);
    }
    if m.progress.Sending? && m.progress.i < |c.pending| {
      EventQuietly(c, c.pending[m.progress.i], user);
    }
    NothingToldOnSending(w, user);
  }

  lemma EventQuietly<E>(c: Connection<E>, q: Queued<E>, user: UserId)
    ensures Quietly(c, EnqueueEvent(c, q).1, user)
  {
    hide LastSaid;
    SaidAfterPush(c, EventAt(q.revision, q.event), user);
  }

  lemma NothingToldOnSending<E>(w: World<E>, user: UserId)
    requires w.marking.Some? && Has(w, w.marking.value.id) && !w.marking.value.progress.Telling?
    ensures Has(MarkedMore(w), w.marking.value.id) && !ToldAlready(MarkedMore(w), w.marking.value.id, user)
  {
    hide Delivered, EnqueuePresence, EnqueueEvent, Sorted;
  }

  lemma MoreUpToDate<E>(w: World<E>, id: ConnectionId, user: UserId, announced: Option<bool>)
    requires Sound(w) && w.marking.Some? && Has(w, w.marking.value.id) && Has(w, id) && UpToDateAt(w, id, user, announced)
    ensures Has(MarkedMore(w), id) && UpToDateAt(MarkedMore(w), id, user, announced)
  {
    hide Sound, MarkedMore, UpToDateAt;
    OthersStay(w, id, user);
    if id == w.marking.value.id {
      if w.marking.value.progress.Telling? {
        TellingUpToDate(w, user, announced);
      } else {
        SendingUpToDate(w, user, announced);
      }
    } else {
      OtherUpToDate(w, MarkedMore(w), id, user, announced);
    }
  }

  lemma OtherUpToDate<E>(w: World<E>, v: World<E>, id: ConnectionId, user: UserId, announced: Option<bool>)
    requires Has(w, id) && Has(v, id) && UpToDateAt(w, id, user, announced) && !IsMarking(w, id) && !IsMarking(v, id)
    requires Quietly(w.room.value.connections[id], v.room.value.connections[id], user)
    ensures UpToDateAt(v, id, user, announced)
  {
    hide LastSaid;
    QuietlyKeeps(w.room.value.connections[id], v.room.value.connections[id], false, user, announced);
  }

  // A readiness step does nothing to others but hand out events.
  lemma OthersStay<E>(w: World<E>, id: ConnectionId, user: UserId)
    requires w.marking.Some? && Has(w, w.marking.value.id) && Has(w, id)
    ensures Has(MarkedMore(w), id)
    ensures id != w.marking.value.id ==>
      !IsMarking(MarkedMore(w), id) && Quietly(w.room.value.connections[id], MarkedMore(w).room.value.connections[id], user)
  {
    hide LastSaid, FlushOne, EnqueuePresence, EnqueueEvent, Failed, Sorted, Quietly;
    var m, room := w.marking.value, w.room.value;
    SameIsQuiet(room.connections[id], user);
    if room.published + 1 in room.pendingEvents {
      FlushNextQuietly(room, id, user);
    }
  }

  lemma SameIsQuiet<E>(c: Connection<E>, user: UserId)
    ensures Quietly(c, c, user)
  {
    hide LastSaid;
  }

  lemma OwnMessagesQuietly<E>(c: Connection<E>, revision: nat, history: seq<E>, user: UserId)
    ensures Quietly(c, Noted(c), user)
    ensures Quietly(c, c.(queue := if c.queue != [] then c.queue[1..] else []), user)
    ensures var (queued, d) := EnqueueInitial(c, revision, history); Quietly(c, if queued then d.(stage := Handshaking) else c.(dropped := true), user)
    ensures var (r, d) := EnqueueState(c, StateAt(revision, history), revision); Quietly(c, if Failed(r) then c.(dropped := true) else d, user)
    ensures var (r, d) := EnqueueErrorAndState(c, revision, history); Quietly(c, if Failed(r) then c.(dropped := true) else d, user)
  {
    hide LastSaid;
    SaidAfterPush(c, Notice, user);
    SaidAfterPush(Push(c, Notice), StateAt(revision, history), user);
    SaidAfterPush(c, Connected(revision), user);
    SaidAfterPush(Push(c, Connected(revision)), StateAt(revision, history), user);
    SaidAfterPush(c, StateAt(revision, history), user);
  }

  lemma OwnStepQuietly<E>(w: World<E>, s: Step<E>, limit: nat, id: ConnectionId, user: UserId)
    requires Enabled(w, s, limit) && Has(w, id) && Has(Next(w, s, limit), id)
    requires s.Commit? || s.Register? || s.Initial? || s.Restate? || s.ErrorAndState? || s.Arrive? || s.Note? || s.Write? || s.Close?
    ensures Next(w, s, limit).marking == w.marking
    ensures Quietly(w.room.value.connections[id], Next(w, s, limit).room.value.connections[id], user)
  {
    hide LastSaid, Noted, EnqueueInitial, EnqueueState, EnqueueErrorAndState, Failed;
    if s.Initial? || s.Restate? || s.ErrorAndState? {
      OwnMessagesQuietly(w.room.value.connections[s.id], s.revision, w.committed[..s.revision], user);
    } else if s.Note? || s.Write? {
      OwnMessagesQuietly(w.room.value.connections[s.id], 0, [], user);
    }
  }

  lemma StepUpToDate<E>(w: World<E>, s: Step<E>, limit: nat, id: ConnectionId, user: UserId, announced: Option<bool>)
    requires Sound(w) && Enabled(w, s, limit) && UpToDateAt(w, id, user, announced)
    ensures UpToDateAt(Next(w, s, limit), id, user, Heard(announced, s, id, user))
  {
    hide LastSaid, MarkReady, Published, Raised, MarkedMore, Informed, Sound, UpToDate, Quietly, Noted, EnqueueInitial, EnqueueState, EnqueueErrorAndState,
      ToldAlready, Flush, FlushOne;
    if !Has(w, id) && Has(Next(w, s, limit), id) {
      OnlyRegisterAdds(w, s, limit, id);
      NewcomerUpToDate(w, s, limit, id, user);
    } else if Has(Next(w, s, limit), id) {
      match s {
        case Mark(self, known) => WholeMarkUpToDate(w, s, limit, id, user, announced);
        case MarkClosed(self, revision, known) => WholeMarkUpToDate(w, s, limit, id, user, announced);
        case MarkBegin(self, known) =>
          var c := w.room.value.connections[self];
          if 0 <= c.revision <= |w.committed| && c.revision >= w.room.value.published {
            RaisedQuietly(w.room.value, self, c.revision, w.committed[..c.revision], known, id, user);
            QuietStep(w, Next(w, s, limit), id, user, announced);
          }
        case MarkMore => MoreUpToDate(w, id, user, announced);
        case Publish(revision) =>
          PublishQuietly(w.room.value, revision, w.committed[revision - 1], limit, id, user);
          QuietStep(w, Next(w, s, limit), id, user, announced);
        case FlushNext =>
          FlushNextQuietly(w.room.value, id, user);
          QuietStep(w, Next(w, s, limit), id, user, announced);
        case Announce(u, online) =>
          NobodyToldYet(w, id, user);
          NobodyToldYet(Next(w, s, limit), id, user);
          AnnouncedUpToDate(w.room.value.connections[id], u, online, user, announced);
        case _ =>
          OwnStepQuietly(w, s, limit, id, user);
          QuietStep(w, Next(w, s, limit), id, user, announced);
      }
    }
  }

  lemma FlushNextQuietly<E>(room: Room<E>, id: ConnectionId, user: UserId)
    requires id in room.connections && room.published + 1 in room.pendingEvents
    ensures id in FlushOne(room).connections && Quietly(room.connections[id], FlushOne(room).connections[id], user)
  {
    hide LastSaid, Delivered;
    DeliveredQuietly(room.connections[id], Queued(room.published + 1, room.pendingEvents[room.published + 1]), user);
  }

  lemma WholeMarkUpToDate<E>(w: World<E>, s: Step<E>, limit: nat, id: ConnectionId, user: UserId, announced: Option<bool>)
    requires Sound(w) && Enabled(w, s, limit) && (s.Mark? || s.MarkClosed?) && Has(w, id) && UpToDateAt(w, id, user, announced)
    ensures UpToDateAt(Next(w, s, limit), id, user, announced)
  {
    hide LastSaid, MarkReady, ConnectionFits, UpToDate, MarkingFits;
    NobodyToldYet(w, id, user);
    var revision := if s.Mark? then w.room.value.connections[s.id].revision else s.revision;
    if s.Mark? {
      HandshakingIsNotReady(w.room.value.connections[s.id], w.room.value.published, w.committed);
    }
    MarkUpToDate(w.room.value, s.id, revision, w.committed[..revision], s.known, id, user, announced);
    NobodyToldYet(Next(w, s, limit), id, user);
  }

  lemma {:induction false} FlushKeepsKeys<E>(room: Room<E>)
    ensures Flush(room).connections.Keys == room.connections.Keys
    decreases |room.pendingEvents|
  {
    hide Delivered;
    if room.published + 1 in room.pendingEvents {
      RemovalShrinks(room.pendingEvents, room.published + 1);
      FlushKeepsKeys(FlushOne(room));
    }
  }

  lemma MarkKeepsKeys<E>(room: Room<E>, self: ConnectionId, revision: int, history: seq<E>, known: set<UserId>)
    ensures MarkReady(room, self, revision, history, known).room.connections.Keys == room.connections.Keys
  {
    hide Flush, CatchUp, Resnapshot;
    FlushKeepsKeys(Raised(room, self, revision, history, known));
  }

  lemma OnlyRegisterAdds<E>(w: World<E>, s: Step<E>, limit: nat, id: ConnectionId)
    requires Enabled(w, s, limit) && !Has(w, id) && Has(Next(w, s, limit), id)
    ensures s.Register? && s.id == id
  {
    hide MarkReady, Flush, Delivered, Informed, Resnapshot, EnqueueEvent, EnqueuePresence, Sorted, Noted, EnqueueInitial, EnqueueState, EnqueueErrorAndState,
      Failed;
    if s.Mark? || s.MarkClosed? {
      var revision := if s.Mark? then w.room.value.connections[s.id].revision else s.revision;
      if 0 <= revision <= |w.committed| {
        MarkKeepsKeys(w.room.value, s.id, revision, w.committed[..revision], s.known);
      }
    } else if s.Publish? && w.room.Some? {
      FlushKeepsKeys(w.room.value);
      FlushKeepsKeys(w.room.value.(pendingEvents := w.room.value.pendingEvents[s.revision := w.committed[s.revision - 1]]));
    }
  }

  lemma NewcomerUpToDate<E>(w: World<E>, s: Step<E>, limit: nat, id: ConnectionId, user: UserId)
    requires Enabled(w, s, limit) && s.Register? && s.id == id
    ensures UpToDateAt(Next(w, s, limit), id, user, None)
  {
  }

  lemma {:induction false} RunIsUpToDate<E>(steps: seq<Step<E>>, limit: nat, id: ConnectionId, user: UserId)
    ensures UpToDateAt(Run(Start<E>(), steps, limit), id, user, LastAnnounced(steps, limit, id, user))
  {
    hide Next, Enabled, UpToDateAt, Sound;
    if steps == [] {
      NobodyThere<E>(id, user);
    } else {
      var front, last := steps[..|steps| - 1], steps[|steps| - 1];
      RunIsUpToDate(front, limit, id, user);
      StartIsSound<E>();
      RunKeepsSound(Start<E>(), front, limit);
      if Enabled(Run(Start<E>(), front, limit), last, limit) {
        StepUpToDate(Run(Start<E>(), front, limit), last, limit, id, user, LastAnnounced(front, limit, id, user));
      }
    }
  }

  lemma NobodyThere<E>(id: ConnectionId, user: UserId)
    ensures UpToDateAt(Start<E>(), id, user, None)
  {
  }

  /** However announcements, the handshake and everything else interleave: a connection that wants to know
      about players and has lost nothing has, once past its handshake, been told of each player what was
      announced last since it registered, and nothing of a player nothing was announced about; during
      the handshake it has been told nothing, or, message by message, the latest. */
  lemma PresenceArrives<E>(steps: seq<Step<E>>, limit: nat, id: ConnectionId, user: UserId)
    requires Has(Run(Start<E>(), steps, limit), id)
    ensures var c := Run(Start<E>(), steps, limit).room.value.connections[id];
      c.presenceEnabled && !c.dropped ==>
        if c.stage == Serving then LastSaid(c.sent, user) == LastAnnounced(steps, limit, id, user)
        else LastSaid(c.sent, user) == None || LastSaid(c.sent, user) == LastAnnounced(steps, limit, id, user)
  {
    hide Run, LastSaid, LastAnnounced, ToldAlready, AllReadyOrLost;
    RunIsUpToDate(steps, limit, id, user);
    RunKeepsReady(steps, limit);
    ReadyThere(Run(Start<E>(), steps, limit).room.value, id);
  }

  lemma ReadyThere<E>(room: Room<E>, id: ConnectionId)
    requires AllReadyOrLost(room) && id in room.connections
    ensures ReadyOrLost(room.connections[id])
  {
  }
}
