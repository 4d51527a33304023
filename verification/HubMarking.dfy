/** A readiness step taken message by message: left alone, it ends exactly where the whole step
    leads, so what may happen between its messages is all that taking it apart adds. */
module HubMarking {
  import opened Common
  import opened Hub
  import opened HubProofs

  function MoreTimes<E>(w: World<E>, n: nat): World<E> {
    if n == 0 then w
    else
      var v := MoreTimes(w, n - 1);
      if v.marking.Some? && Has(v, v.marking.value.id) then MarkedMore(v) else v
  }

  ghost predicate LeadsTo<E>(w: World<E>, v: World<E>) {
    exists n: nat :: MoreTimes(w, n) == v
  }

  lemma {:induction false} MoreAndMore<E>(w: World<E>, a: nat, b: nat)
    ensures MoreTimes(MoreTimes(w, a), b) == MoreTimes(w, a + b)
  {
    hide MarkedMore;
    if b > 0 {
      MoreAndMore(w, a, b - 1);
    }
  }

  lemma LeadsOn<E>(w: World<E>, v: World<E>, u: World<E>)
    requires LeadsTo(w, v) && LeadsTo(v, u)
    ensures LeadsTo(w, u)
  {
    hide MoreTimes;
    var a: nat :| MoreTimes(w, a) == v;
    var b: nat :| MoreTimes(v, b) == u;
    MoreAndMore(w, a, b);
  }

  lemma LeadsNowhere<E>(w: World<E>)
    ensures LeadsTo(w, w)
  {
    assert MoreTimes(w, 0) == w;
  }

  lemma LeadsOnce<E>(w: World<E>)
    requires w.marking.Some? && Has(w, w.marking.value.id)
    ensures LeadsTo(w, MarkedMore(w))
  {
    hide MarkedMore;
    assert MoreTimes(w, 0) == w;
    assert MoreTimes(w, 1) == MarkedMore(w);
  }

  function At<E>(w: World<E>, progress: Progress): World<E>
    requires w.marking.Some?
  {
    w.(marking := Some(w.marking.value.(progress := progress)))
  }

  lemma {:induction false} FlushLeads<E>(w: World<E>)
    requires w.marking.Some? && Has(w, w.marking.value.id) && w.marking.value.progress == Flushing
    ensures LeadsTo(w, At(w.(room := Some(Flush(w.room.value))), Sending(0)))
    decreases |w.room.value.pendingEvents|
  {
    hide LeadsTo, DeliveredToAll;
    var room := w.room.value;
    LeadsOnce(w);
    if room.published + 1 in room.pendingEvents {
      RemovalShrinks(room.pendingEvents, room.published + 1);
      KeysAfterDelivery(room.connections, Queued(room.published + 1, room.pendingEvents[room.published + 1]));
      var next := w.(room := Some(FlushOne(room)));
      FlushLeads(next);
      LeadsOn(w, next, At(w.(room := Some(Flush(room))), Sending(0)));
    }
  }

  lemma KeysAfterDelivery<E>(connections: map<ConnectionId, Connection<E>>, q: Queued<E>)
    ensures DeliveredToAll(connections, q).Keys == connections.Keys
  {
  }

  lemma {:induction false} DrainKeepsKept<E>(c: Connection<E>, revision: int, n: nat)
    requires n <= |c.pending|
    ensures var d := DrainPending(c, revision, n).1; d.pending == c.pending && d.held == c.held
  {
    if n > 0 {
      DrainKeepsKept(c, revision, n - 1);
    }
  }

  lemma {:induction false} DrainStaysStuck<E>(c: Connection<E>, revision: int, i: nat, n: nat)
    requires i <= n <= |c.pending| && !DrainPending(c, revision, i).0
    ensures DrainPending(c, revision, n) == DrainPending(c, revision, i)
  {
    if i < n {
      DrainStaysStuck(c, revision, i, n - 1);
    }
  }

  /** Sending the kept events one by one, from the `i`-th on. */
  lemma {:induction false} SendLeads<E>(w: World<E>, c: Connection<E>, i: nat)
    requires w.marking.Some? && Has(w, w.marking.value.id) && i <= |c.pending| && w.marking.value.progress == Sending(i)
    requires DrainPending(c, w.marking.value.revision, i) == (true, w.room.value.connections[w.marking.value.id])
    ensures var (ok, d) := DrainPending(c, w.marking.value.revision, |c.pending|);
      LeadsTo(w, if ok then At(Updated(w, w.marking.value.id, d), Telling(0)) else Finished(w, d, false))
    decreases |c.pending| - i
  {
    hide LeadsTo, EnqueueEvent, Failed, Finished;
    var m, here := w.marking.value, w.room.value.connections[w.marking.value.id];
    DrainKeepsKept(c, m.revision, i);
    LeadsOnce(w);
    SameThere(w, m.id);
    if i < |c.pending| {
      var q := c.pending[i];
      if q.revision > m.revision && Failed(EnqueueEvent(here, q).0) {
        assert DrainPending(c, m.revision, i + 1) == (false, here);
        DrainStaysStuck(c, m.revision, i + 1, |c.pending|);
      } else {
        var next := MarkedMore(w);
        var d := DrainPending(c, m.revision, i + 1).1;
        assert next == At(Updated(w, m.id, d), Sending(i + 1));
        SendLeads(next, c, i + 1);
        UpdatedTwice(w, m.id, d, DrainPending(c, m.revision, |c.pending|).1);
        var (ok, e) := DrainPending(c, m.revision, |c.pending|);
        FinishedTwice(w, d, Sending(i + 1), e, false);
        LeadsOn(w, next, if ok then At(Updated(w, m.id, e), Telling(0)) else Finished(w, e, false));
      }
    }
  }

  lemma SameThere<E>(w: World<E>, id: ConnectionId)
    requires Has(w, id)
    ensures Updated(w, id, w.room.value.connections[id]) == w
  {
    assert w.room.value.connections[id := w.room.value.connections[id]] == w.room.value.connections;
  }

  lemma UpdatedTwice<E>(w: World<E>, id: ConnectionId, c: Connection<E>, d: Connection<E>)
    requires w.room.Some?
    ensures Updated(Updated(w, id, c), id, d) == Updated(w, id, d)
  {
    assert w.room.value.connections[id := c][id := d] == w.room.value.connections[id := d];
  }

  lemma FinishedTwice<E>(w: World<E>, c: Connection<E>, progress: Progress, d: Connection<E>, queued: bool)
    requires w.marking.Some? && w.room.Some?
    ensures Finished(At(Updated(w, w.marking.value.id, c), progress), d, queued) == Finished(w, d, queued)
  {
    UpdatedTwice(w, w.marking.value.id, c, d.(pending := [], held := map[], stage := Serving, ready := queued, dropped := d.dropped || !queued));
  }

  lemma {:induction false} TellStaysStuck<E>(c: Connection<E>, held: map<UserId, bool>, users: seq<UserId>, i: nat, n: nat)
    requires i <= n <= |users| && (forall j :: 0 <= j < n ==> users[j] in held) && !TellHeld(c, held, users, i).0
    ensures TellHeld(c, held, users, n) == TellHeld(c, held, users, i)
  {
    if i < n {
      TellStaysStuck(c, held, users, i, n - 1);
    }
  }

  lemma {:induction false} TellKeepsHeld<E>(c: Connection<E>, held: map<UserId, bool>, users: seq<UserId>, n: nat)
    requires n <= |users| && forall j :: 0 <= j < n ==> users[j] in held
    ensures TellHeld(c, held, users, n).1.held == c.held
  {
    if n > 0 {
      TellKeepsHeld(c, held, users, n - 1);
    }
  }

  /** Telling the kept presence states one by one, from the `i`-th on, and the end of the step. */
  lemma {:induction false} TellLeads<E>(w: World<E>, c: Connection<E>, users: seq<UserId>, i: nat)
    requires w.marking.Some? && Has(w, w.marking.value.id) && users == Sorted(c.held.Keys) && i <= |users|
    requires w.marking.value.progress == Telling(i)
    requires TellHeld(c, c.held, users, i) == (true, w.room.value.connections[w.marking.value.id])
    ensures var (ok, d) := TellHeld(c, c.held, users, |users|); LeadsTo(w, Finished(w, d, ok))
    decreases |users| - i
  {
    hide LeadsTo, EnqueuePresence, Finished, Sorted;
    var m, here := w.marking.value, w.room.value.connections[w.marking.value.id];
    TellKeepsHeld(c, c.held, users, i);
    LeadsOnce(w);
    if i < |users| {
      var (told, d) := EnqueuePresence(here, users[i], c.held[users[i]]);
      if !told {
        NotToldIsSame(here, users[i], c.held[users[i]]);
        assert TellHeld(c, c.held, users, i + 1) == (false, here);
        TellStaysStuck(c, c.held, users, i + 1, |users|);
      } else {
        var next := MarkedMore(w);
        assert next == At(Updated(w, m.id, d), Telling(i + 1));
        TellLeads(next, c, users, i + 1);
        var (ok, e) := TellHeld(c, c.held, users, |users|);
        FinishedTwice(w, d, Telling(i + 1), e, ok);
        LeadsOn(w, next, Finished(w, e, ok));
      }
    }
  }

  lemma NotToldIsSame<E>(c: Connection<E>, user: UserId, online: bool)
    ensures !EnqueuePresence(c, user, online).0 ==> EnqueuePresence(c, user, online).1 == c
  {
  }

  /** Left alone, a readiness step taken message by message is the whole step. */
  lemma MessagesMakeTheWholeStep<E>(w: World<E>, id: ConnectionId, known: set<UserId>, limit: nat)
    requires Sound(w) && Enabled(w, MarkBegin(id, known), limit)
    ensures LeadsTo(Next(w, MarkBegin(id, known), limit), Next(w, Mark(id, known), limit))
  {
    hide LeadsTo, Finished, Flush, Raised, DrainPending, TellHeld, Sorted, ConnectionFits;
    var revision := w.room.value.connections[id].revision;
    HandshakingIsNotReady(w.room.value.connections[id], w.room.value.published, w.committed);
    var begun := Next(w, MarkBegin(id, known), limit);
    if revision < w.room.value.published {
      LeadsNowhere(w);
    } else {
      RaisedFits(w.room.value, id, revision, w.committed, known);
      FlushLeads(begun);
      FlushFits(begun.room.value, w.committed);
      var flushed := At(begun.(room := Some(Flush(begun.room.value))), Sending(0));
      var c := flushed.room.value.connections[id];
      DrainedNone(c, revision);
      SendLeads(flushed, c, 0);
      var (drained, d) := DrainPending(c, revision, |c.pending|);
      RaisedIsAdvance(w.room.value, id, revision, w.committed[..revision], known);
      if drained {
        var telling := At(Updated(flushed, id, d), Telling(0));
        DrainKeepsKept(c, revision, |c.pending|);
        ToldNone(d, Sorted(d.held.Keys));
        TellLeads(telling, d, Sorted(d.held.Keys), 0);
        var (told, e) := TellHeld(d, d.held, Sorted(d.held.Keys), |Sorted(d.held.Keys)|);
        FinishedTwice(flushed, d, Telling(0), e, told);
        LeadsOn(flushed, telling, Finished(flushed, e, told));
        LeadsOn(begun, flushed, Finished(flushed, e, told));
        FinishedIsMarked(w, flushed, id, known, e, told);
      } else {
        LeadsOn(begun, flushed, Finished(flushed, d, false));
        FinishedIsMarked(w, flushed, id, known, d, false);
      }
    }
  }

  lemma DrainedNone<E>(c: Connection<E>, revision: int)
    ensures DrainPending(c, revision, 0) == (true, c)
  {
  }

  lemma ToldNone<E>(c: Connection<E>, users: seq<UserId>)
    ensures TellHeld(c, c.held, users, 0) == (true, c)
  {
  }

  lemma RaisedIsAdvance<E>(room: Room<E>, self: ConnectionId, revision: int, history: seq<E>, known: set<UserId>)
    ensures Flush(Raised(room, self, revision, history, known)) == Advance(room, self, revision, history, known)
  {
  }

  lemma FinishedIsMarked<E>(w: World<E>, flushed: World<E>, id: ConnectionId, known: set<UserId>, d: Connection<E>, queued: bool)
    requires w.marking.None? && Has(w, id) && flushed.marking.Some? && flushed.marking.value.id == id && flushed.committed == w.committed
    requires var revision := w.room.value.connections[id].revision;
      && w.room.value.published <= revision && 0 <= revision <= |w.committed|
      && flushed.room == Some(Advance(w.room.value, id, revision, w.committed[..revision], known)) && id in flushed.room.value.connections
      && CatchUp(flushed.room.value.connections[id], revision) == (queued, d)
    ensures var revision := w.room.value.connections[id].revision;
      Finished(flushed, d, queued) == w.(room := Some(MarkReady(w.room.value, id, revision, w.committed[..revision], known).room))
  {
    hide Advance, CatchUp;
  }
}
